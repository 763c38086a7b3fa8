/**
 Two runs in which a resumed operation is refused by a clock rule, one for each
 rule: the wallet's, behind a movement that had nothing to do with it, and the
 row's own, behind a parking later than the turn's instant. Each is a run of the
 machine from its initial state, whatever the configuration.
 */
module ClockWitness {
  import opened Prelude
  import opened Domain
  import opened Store
  import opened Movement
  import opened MovementRuns
  import opened Uninterrupted
  import Backoff

  // ----- What both runs share ------------------------------------------------

  function Op(external: ExternalId, kind: Kind, amount: int, reference: Option<ExternalId>): Operation {
    Operation(1, external, external, 1, 1, 1, 1, kind, amount, 1, reference)
  }

  /** One wallet's tables. */
  function Tables(rows: map<TransactionId, Row>, wallet: Wallet, ledger: seq<Entry>, events: nat): DB {
    DB(rows, map[1 := wallet], map[1 := ledger], map[], map[], map[1 := events])
  }

  const OPENING := OpenCommand(1, 1, 1, 1, 100)
  const OPENING_ROW := OpeningRow(OPENING, 0)
  const FIRST_ENTRY := Entry(1, Credit, 100, 0, 100, 1, 0)
  const OPENED := Tables(map[1 := OPENING_ROW], Wallet(1, 1, 100, 1, 0), [FIRST_ENTRY], 2)

  const BET := Op(10, Bet, 10, None)
  const BET_ROW := Row(BET, Processed, None, 0, None, None, 3, Some(90), None)
  const BET_ENTRY := Entry(3, Debit, 10, 100, 90, 2, 3)

  /** What is parked on the bet: a refund of it in one run, a win in the other. */
  predicate NamesTheBet(op: Operation) {
    op == Op(20, Refund, 10, Some(10)) || op == Op(20, Win, 7, Some(10))
  }

  function Parked(cfg: Config, op: Operation, at: Time, next: Time): Row {
    Row(op, PendingReference, None, 1, Some(at + cfg.wait.ttl), Some(next), at, None, None)
  }

  function FirstTry(cfg: Config, id: TransactionId, at: Time): Time
    requires ValidConfig(cfg)
  {
    Backoff.Next(cfg.backoff, 1, at, Some(at + cfg.wait.ttl), id)
  }

  function AfterParking(cfg: Config, op: Operation): DB
    requires ValidConfig(cfg)
  {
    Tables(map[1 := OPENING_ROW, 2 := Parked(cfg, op, 1, FirstTry(cfg, 2, 1))], Wallet(1, 1, 100, 1, 0), [FIRST_ENTRY], 3)
  }

  function AfterTheBet(cfg: Config, op: Operation): DB {
    Tables(map[1 := OPENING_ROW, 2 := Parked(cfg, op, 1, 3), 3 := BET_ROW], Wallet(1, 1, 90, 2, 3),
           [FIRST_ENTRY, BET_ENTRY], 5)
  }

  function Quiet(db: DB, clock: Time, log: seq<LogEntry>, starts: seq<nat>): State {
    State(db, map[], clock, {}, {}, log, starts)
  }

  function Log1(op: Operation): seq<LogEntry> { [LogEntry(Command(op, 2, None, 0), Recorded(2))] }

  function Log2(op: Operation): seq<LogEntry> { Log1(op) + [LogEntry(Command(BET, 3, None, 1), Recorded(3))] }

  lemma WalletOpens(cfg: Config)
    requires ValidConfig(cfg)
    ensures Reachable(cfg, Quiet(OPENED, 1, [], []))
  {
    hide Reachable;
    InitialIsReachable(cfg);
    OpeningRuns(cfg, INITIAL, 0, OPENING);
    assert Opened(EMPTY, OPENING, 0) == OPENED;
    Ticks(cfg, Quiet(OPENED, 0, [], []), 1);
  }

  /** The first operation finds no bet and parks, at 1. */
  lemma FirstParks(cfg: Config, op: Operation)
    requires ValidConfig(cfg) && NamesTheBet(op)
    ensures Reachable(cfg, Quiet(AfterParking(cfg, op), 3, Log1(op), [0]))
  {
    hide Reachable, Backoff.Next;
    WalletOpens(cfg);
    var s, cmd := Quiet(OPENED, 1, [], []), Command(op, 2, None, 0);
    assert !Clashes(OPENED, op);
    assert Reads(OPENED, op, None);
    var m := Application(s, cmd, Viewed(None));
    var out := Outcome(Row(op, PendingReference, None, 1, Some(1 + cfg.wait.ttl), None, 1, None, None), None);
    assert ContinueOf(cfg, m, None) == Ok(out);
    var d := Delta(1, map[2 := Parked(cfg, op, 1, FirstTry(cfg, 2, 1))], None, None, {}, map[], None);
    assert SettleOf(cfg, OPENED, m, out) == Ok(d);
    SubmissionRuns(cfg, s, 0, cmd, None, out, d);
    var after := Merge(OPENED, Everything(OPENED, d, out, 1));
    assert after.rows == AfterParking(cfg, op).rows;
    assert after == AfterParking(cfg, op);
    assert [] + Log1(op) == Log1(op) && [] + [0] == [0];
    Ticks(cfg, Quiet(AfterParking(cfg, op), 1, Log1(op), [0]), 3);
  }

  const BET_OUTCOME := Outcome(BET_ROW, Some(BET_ENTRY))
  const BET_DELTA := Delta(1, map[3 := BET_ROW], Some(Wallet(1, 1, 90, 2, 3)), Some(BET_ENTRY), {}, map[], None)

  lemma TheBetIsDecided(cfg: Config, op: Operation, m: Proc)
    requires ValidConfig(cfg) && NamesTheBet(op)
    requires m == Moving(BySubmit(Command(BET, 3, None, 1), false), 3, NewRow(BET, 3), Wallet(1, 1, 100, 1, 0), 3, Viewed(None))
    ensures ContinueOf(cfg, m, None) == Ok(BET_OUTCOME)
    ensures SettleOf(cfg, AfterParking(cfg, op), m, BET_OUTCOME) == Ok(BET_DELTA)
  {
    hide Backoff.Next;
  }

  lemma TheBetWakes(cfg: Config, op: Operation)
    requires ValidConfig(cfg) && NamesTheBet(op)
    ensures Woken(AfterParking(cfg, op), BET_DELTA, BET, 3) == map[2 := Parked(cfg, op, 1, 3)]
  {
    hide Backoff.Next;
    assert AfterParking(cfg, op).rows + BET_DELTA.rows
        == map[1 := OPENING_ROW, 2 := Parked(cfg, op, 1, FirstTry(cfg, 2, 1)), 3 := BET_ROW];
  }

  lemma TheBetIsPublished(cfg: Config, op: Operation)
    requires ValidConfig(cfg) && NamesTheBet(op)
    ensures var db := AfterParking(cfg, op); Merge(db, Everything(db, BET_DELTA, BET_OUTCOME, 3)) == AfterTheBet(cfg, op)
  {
    hide Backoff.Next, Woken;
    var db := AfterParking(cfg, op);
    TheBetWakes(cfg, op);
    assert db.rows + (BET_DELTA.rows + map[2 := Parked(cfg, op, 1, 3)]) == AfterTheBet(cfg, op).rows;
    assert db.holds - {} + map[] == map[];
    assert LedgerOf(db, 1) + [BET_ENTRY] == [FIRST_ENTRY, BET_ENTRY];
  }

  /** The bet arrives at 3 and wakes it. */
  lemma TheBetArrives(cfg: Config, op: Operation)
    requires ValidConfig(cfg) && NamesTheBet(op)
    ensures Reachable(cfg, Quiet(AfterTheBet(cfg, op), 5, Log2(op), [0, 1]))
  {
    hide Reachable, Backoff.Next, ContinueOf, SettleOf, Merge, Everything, AfterTheBet;
    FirstParks(cfg, op);
    var db := AfterParking(cfg, op);
    var s, cmd := Quiet(db, 3, Log1(op), [0]), Command(BET, 3, None, 1);
    assert !Clashes(db, BET);
    TheBetIsDecided(cfg, op, Application(s, cmd, Viewed(None)));
    SubmissionRuns(cfg, s, 0, cmd, None, BET_OUTCOME, BET_DELTA);
    TheBetIsPublished(cfg, op);
    assert [0] + [1] == [0, 1];
    Ticks(cfg, Quiet(AfterTheBet(cfg, op), 3, Log2(op), [0, 1]), 5);
  }

  /** A turn samples 5 and finds the parked operation. */
  lemma ATurnFindsIt(cfg: Config, op: Operation)
    requires ValidConfig(cfg) && NamesTheBet(op)
    ensures Reachable(cfg, With(Quiet(AfterTheBet(cfg, op), 5, Log2(op), [0, 1]), 7, Resuming(5, Candidate(2, 1))))
  {
    hide Reachable;
    TheBetArrives(cfg, op);
    var s := Quiet(AfterTheBet(cfg, op), 5, Log2(op), [0, 1]);
    ResumeBegins(cfg, s, 7);
    ResumeFinds(cfg, s, 7, 5, 2);
  }

  // ----- The wallet's clock --------------------------------------------------

  const REFUND := Op(20, Refund, 10, Some(10))
  const LATER := Op(11, Bet, 10, None)
  const LATER_ROW := Row(LATER, Processed, None, 0, None, None, 9, Some(80), None)
  const LATER_ENTRY := Entry(4, Debit, 10, 90, 80, 3, 9)

  function AfterTheLaterBet(cfg: Config): DB {
    Tables(map[1 := OPENING_ROW, 2 := Parked(cfg, REFUND, 1, 3), 3 := BET_ROW, 4 := LATER_ROW], Wallet(1, 1, 80, 3, 9),
           [FIRST_ENTRY, BET_ENTRY, LATER_ENTRY], 7)
  }

  function Log3(): seq<LogEntry> { Log2(REFUND) + [LogEntry(Command(LATER, 4, None, 2), Recorded(4))] }

  const LATER_OUTCOME := Outcome(LATER_ROW, Some(LATER_ENTRY))
  const LATER_DELTA := Delta(1, map[4 := LATER_ROW], Some(Wallet(1, 1, 80, 3, 9)), Some(LATER_ENTRY), {}, map[], None)

  lemma TheLaterBetIsDecided(cfg: Config, m: Proc)
    requires ValidConfig(cfg)
    requires m == Moving(BySubmit(Command(LATER, 4, None, 2), false), 4, NewRow(LATER, 9), Wallet(1, 1, 90, 2, 3), 9, Viewed(None))
    ensures ContinueOf(cfg, m, None) == Ok(LATER_OUTCOME)
    ensures SettleOf(cfg, AfterTheBet(cfg, REFUND), m, LATER_OUTCOME) == Ok(LATER_DELTA)
  {
  }

  lemma TheLaterBetWakesNobody(cfg: Config)
    ensures Woken(AfterTheBet(cfg, REFUND), LATER_DELTA, LATER, 9) == map[]
  {
    assert AfterTheBet(cfg, REFUND).rows + LATER_DELTA.rows
        == map[1 := OPENING_ROW, 2 := Parked(cfg, REFUND, 1, 3), 3 := BET_ROW, 4 := LATER_ROW];
  }

  lemma TheLaterBetIsPublished(cfg: Config)
    ensures var db := AfterTheBet(cfg, REFUND);
            Merge(db, Everything(db, LATER_DELTA, LATER_OUTCOME, 9)) == AfterTheLaterBet(cfg)
  {
    hide Woken;
    var db := AfterTheBet(cfg, REFUND);
    TheLaterBetWakesNobody(cfg);
    assert db.rows + (LATER_DELTA.rows + map[]) == AfterTheLaterBet(cfg).rows;
    assert db.holds - {} + map[] == map[];
    assert LedgerOf(db, 1) + [LATER_ENTRY] == [FIRST_ENTRY, BET_ENTRY, LATER_ENTRY];
  }

  /** Before that turn has the wallet, an unrelated bet moves it, at 9. */
  lemma AnotherBetOvertakes(cfg: Config)
    requires ValidConfig(cfg)
    ensures Reachable(cfg, With(Quiet(AfterTheLaterBet(cfg), 9, Log3(), [0, 1, 2]), 7, Resuming(5, Candidate(2, 1))))
  {
    hide Reachable, ContinueOf, SettleOf, Merge, Everything, AfterTheLaterBet;
    ATurnFindsIt(cfg, REFUND);
    var db, turn := AfterTheBet(cfg, REFUND), Resuming(5, Candidate(2, 1));
    Ticks(cfg, With(Quiet(db, 5, Log2(REFUND), [0, 1]), 7, turn), 9);
    var s, cmd := With(Quiet(db, 9, Log2(REFUND), [0, 1]), 7, turn), Command(LATER, 4, None, 2);
    assert !Clashes(db, LATER);
    TheLaterBetIsDecided(cfg, Application(s, cmd, Viewed(None)));
    SubmissionRuns(cfg, s, 0, cmd, None, LATER_OUTCOME, LATER_DELTA);
    TheLaterBetIsPublished(cfg);
    assert [0, 1] + [2] == [0, 1, 2];
  }

  /** The turn then claims the refund, which has been due since 3, and reads its
      bet; the door refuses what it brings, because the wallet moved at 9. */
  lemma AResumeIsRefusedByTheWalletsClock(cfg: Config)
    requires ValidConfig(cfg)
    ensures var view := Some(View(3, BET_ROW, []));
            var m := Moving(ByResume, 2, Parked(cfg, REFUND, 1, 3), Wallet(1, 1, 80, 3, 9), 5, Viewed(view));
            var s := With(Quiet(AfterTheLaterBet(cfg), 9, Log3(), [0, 1, 2]), 7, m);
            && Reachable(cfg, s)
            && ContinueOf(cfg, m, view).Ok?
            && SettleOf(cfg, s.db, m, ContinueOf(cfg, m, view).value) == Err(ClockRefused)
            && m.now >= m.base.updatedAt
  {
    hide Reachable;
    AnotherBetOvertakes(cfg);
    var db, view := AfterTheLaterBet(cfg), Some(View(3, BET_ROW, []));
    assert forall h, t :: !ReversesIn(db, h, t);
    assert Reads(db, REFUND, view);
    ResumeViews(cfg, Quiet(db, 9, Log3(), [0, 1, 2]), 7, 5, 2, view);
    assert Resumption(db, 2, 5, Viewed(view)) == Moving(ByResume, 2, Parked(cfg, REFUND, 1, 3), Wallet(1, 1, 80, 3, 9), 5, Viewed(view));
  }

  // ----- The row's own clock -------------------------------------------------

  const WIN := Op(20, Win, 7, Some(10))
  const UNDO := Op(30, Rollback, 7, Some(20))

  function AfterTheUndoParks(cfg: Config): DB
    requires ValidConfig(cfg)
  {
    Tables(map[1 := OPENING_ROW, 2 := Parked(cfg, WIN, 1, 3), 3 := BET_ROW, 4 := Parked(cfg, UNDO, 8, FirstTry(cfg, 4, 8))],
           Wallet(1, 1, 90, 2, 3), [FIRST_ENTRY, BET_ENTRY], 6)
  }

  function Log4(): seq<LogEntry> { Log2(WIN) + [LogEntry(Command(UNDO, 4, None, 2), Recorded(4))] }

  function TwoTurns(): map<Pid, Proc> {
    map[7 := Resuming(5, Candidate(2, 1)), 8 := Resuming(6, Looking)]
  }

  function UndoOutcome(cfg: Config): Outcome {
    Outcome(Row(UNDO, PendingReference, None, 1, Some(8 + cfg.wait.ttl), None, 8, None, None), None)
  }

  function UndoDelta(cfg: Config): Delta
    requires ValidConfig(cfg)
  {
    Delta(1, map[4 := Parked(cfg, UNDO, 8, FirstTry(cfg, 4, 8))], None, None, {}, map[], None)
  }

  lemma TheUndoIsDecided(cfg: Config, m: Proc, view: Option<View>)
    requires ValidConfig(cfg) && view == Some(View(2, Parked(cfg, WIN, 1, 3), []))
    requires m == Moving(BySubmit(Command(UNDO, 4, None, 2), false), 4, NewRow(UNDO, 8), Wallet(1, 1, 90, 2, 3), 8, Viewed(view))
    ensures ContinueOf(cfg, m, view) == Ok(UndoOutcome(cfg))
    ensures SettleOf(cfg, AfterTheBet(cfg, WIN), m, UndoOutcome(cfg)) == Ok(UndoDelta(cfg))
  {
    hide Backoff.Next;
  }

  lemma TheUndoIsPublished(cfg: Config)
    requires ValidConfig(cfg)
    ensures var db := AfterTheBet(cfg, WIN);
            Merge(db, Everything(db, UndoDelta(cfg), UndoOutcome(cfg), 8)) == AfterTheUndoParks(cfg)
  {
    hide Backoff.Next;
    var db := AfterTheBet(cfg, WIN);
    assert db.rows + UndoDelta(cfg).rows == AfterTheUndoParks(cfg).rows;
    assert db.holds - {} + map[] == map[];
  }

  /** A second turn samples 6. */
  lemma TwoTurnsAreAtWork(cfg: Config)
    requires ValidConfig(cfg)
    ensures Reachable(cfg, Quiet(AfterTheBet(cfg, WIN), 8, Log2(WIN), [0, 1]).(procs := TwoTurns()))
  {
    hide Reachable;
    ATurnFindsIt(cfg, WIN);
    var db := AfterTheBet(cfg, WIN);
    var first := With(Quiet(db, 5, Log2(WIN), [0, 1]), 7, Resuming(5, Candidate(2, 1)));
    Ticks(cfg, first, 6);
    ResumeBegins(cfg, first.(clock := 6), 8);
    var both := Quiet(db, 6, Log2(WIN), [0, 1]).(procs := TwoTurns());
    assert With(first.(clock := 6), 8, Resuming(6, Looking)) == both;
    Ticks(cfg, both, 8);
  }

  /** A rollback of the parked win parks at 8. */
  lemma TheUndoParks(cfg: Config)
    requires ValidConfig(cfg)
    ensures Reachable(cfg, Quiet(AfterTheUndoParks(cfg), 8, Log4(), [0, 1, 2]).(procs := TwoTurns()))
  {
    hide Reachable, Backoff.Next, ContinueOf, SettleOf, Merge, Everything, AfterTheUndoParks;
    TwoTurnsAreAtWork(cfg);
    var db := AfterTheBet(cfg, WIN);
    var s, cmd := Quiet(db, 8, Log2(WIN), [0, 1]).(procs := TwoTurns()), Command(UNDO, 4, None, 2);
    var view := Some(View(2, Parked(cfg, WIN, 1, 3), []));
    assert !Clashes(db, UNDO);
    assert forall h, t :: !ReversesIn(db, h, t);
    assert Reads(db, UNDO, view);
    TheUndoIsDecided(cfg, Application(s, cmd, Viewed(view)), view);
    SubmissionRuns(cfg, s, 0, cmd, view, UndoOutcome(cfg), UndoDelta(cfg));
    TheUndoIsPublished(cfg);
    assert [0, 1] + [2] == [0, 1, 2];
  }

  function WinRow(cfg: Config): Row {
    Row(WIN, Processed, Some(3), 1, Some(1 + cfg.wait.ttl), None, 5, Some(97), None)
  }

  const WIN_ENTRY := Entry(2, Credit, 7, 90, 97, 3, 5)

  function AfterTheWin(cfg: Config): DB {
    Tables(map[1 := OPENING_ROW, 2 := WinRow(cfg), 3 := BET_ROW, 4 := Parked(cfg, UNDO, 8, 5)],
           Wallet(1, 1, 97, 3, 5), [FIRST_ENTRY, BET_ENTRY, WIN_ENTRY], 8)
  }

  function WinOutcome(cfg: Config): Outcome { Outcome(WinRow(cfg), Some(WIN_ENTRY)) }

  function WinDelta(cfg: Config): Delta {
    Delta(1, map[2 := WinRow(cfg)], Some(Wallet(1, 1, 97, 3, 5)), Some(WIN_ENTRY), {}, map[], None)
  }

  lemma TheWinIsDecided(cfg: Config, m: Proc, view: Option<View>)
    requires ValidConfig(cfg) && view == Some(View(3, BET_ROW, []))
    requires m == Moving(ByResume, 2, Parked(cfg, WIN, 1, 3), Wallet(1, 1, 90, 2, 3), 5, Viewed(view))
    ensures ContinueOf(cfg, m, view) == Ok(WinOutcome(cfg))
    ensures SettleOf(cfg, AfterTheUndoParks(cfg), m, WinOutcome(cfg)) == Ok(WinDelta(cfg))
  {
    hide Backoff.Next;
  }

  lemma TheWinWakes(cfg: Config)
    requires ValidConfig(cfg)
    ensures Woken(AfterTheUndoParks(cfg), WinDelta(cfg), WIN, 5) == map[4 := Parked(cfg, UNDO, 8, 5)]
  {
    hide Backoff.Next;
    assert AfterTheUndoParks(cfg).rows + WinDelta(cfg).rows
        == map[1 := OPENING_ROW, 2 := WinRow(cfg), 3 := BET_ROW, 4 := Parked(cfg, UNDO, 8, FirstTry(cfg, 4, 8))];
  }

  lemma TheWinIsPublished(cfg: Config)
    requires ValidConfig(cfg)
    ensures var db := AfterTheUndoParks(cfg); Merge(db, Everything(db, WinDelta(cfg), WinOutcome(cfg), 5)) == AfterTheWin(cfg)
  {
    hide Backoff.Next, Woken;
    var db := AfterTheUndoParks(cfg);
    TheWinWakes(cfg);
    assert db.rows + (WinDelta(cfg).rows + map[4 := Parked(cfg, UNDO, 8, 5)]) == AfterTheWin(cfg).rows;
    assert db.holds - {} + map[] == map[];
    assert LedgerOf(db, 1) + [WIN_ENTRY] == [FIRST_ENTRY, BET_ENTRY, WIN_ENTRY];
  }

  /** The first turn settles the win at its own instant, 5, which wakes the
      rollback at 5: before it was parked. */
  lemma TheWinSettles(cfg: Config)
    requires ValidConfig(cfg)
    ensures Reachable(cfg, With(Quiet(AfterTheWin(cfg), 8, Log4(), [0, 1, 2]), 8, Resuming(6, Looking)))
  {
    hide Reachable, Backoff.Next, ContinueOf, SettleOf, Merge, Everything, AfterTheWin;
    TheUndoParks(cfg);
    var db, view := AfterTheUndoParks(cfg), Some(View(3, BET_ROW, []));
    var s := With(Quiet(db, 8, Log4(), [0, 1, 2]), 8, Resuming(6, Looking));
    assert With(s, 7, Resuming(5, Candidate(2, 1))).procs == TwoTurns();
    assert forall h, t :: !ReversesIn(db, h, t);
    assert Reads(db, WIN, view);
    ResumeViews(cfg, s, 7, 5, 2, view);
    TheWinIsDecided(cfg, Resumption(db, 2, 5, Viewed(view)), view);
    ResumeSettles(cfg, s, 7, 5, 2, view, WinOutcome(cfg), WinDelta(cfg));
    TheWinIsPublished(cfg);
  }

  /** The second turn, sampled at 6, claims the rollback, which is due, and is
      refused: the row was written at 8. The wallet, moved at 5, had no objection. */
  lemma AResumeIsRefusedByTheRowsClock(cfg: Config)
    requires ValidConfig(cfg)
    ensures var view := Some(View(2, WinRow(cfg), []));
            var m := Moving(ByResume, 4, Parked(cfg, UNDO, 8, 5), Wallet(1, 1, 97, 3, 5), 6, Viewed(view));
            var s := With(Quiet(AfterTheWin(cfg), 8, Log4(), [0, 1, 2]), 8, m);
            && Reachable(cfg, s)
            && ContinueOf(cfg, m, view).Ok?
            && SettleOf(cfg, s.db, m, ContinueOf(cfg, m, view).value) == Err(ClockRefused)
            && m.now > m.wallet.updatedAt
  {
    hide Reachable;
    TheWinSettles(cfg);
    var db, view := AfterTheWin(cfg), Some(View(2, WinRow(cfg), []));
    assert forall h, t :: !ReversesIn(db, h, t);
    assert Reads(db, UNDO, view);
    var s := Quiet(db, 8, Log4(), [0, 1, 2]);
    ResumeFinds(cfg, s, 8, 6, 4);
    ResumeViews(cfg, s, 8, 6, 4, view);
    assert Resumption(db, 4, 6, Viewed(view)) == Moving(ByResume, 4, Parked(cfg, UNDO, 8, 5), Wallet(1, 1, 97, 3, 5), 6, Viewed(view));
  }
}
