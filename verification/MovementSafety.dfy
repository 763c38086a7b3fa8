/** Commits, and with them every step and every run, keep the invariant. */
module MovementSafety {
  import opened Prelude
  import opened Domain
  import opened Store
  import opened Reversals
  import opened Netting
  import opened Movement
  import opened MovementInvariant
  import opened MovementSteps
  import opened MovementFrame
  import opened MovementDelta
  import opened MovementCommit
  import Backoff

  // ----- A deferred operation ------------------------------------------------

  /** cannotCarryForward's one write, in the form every other commit has. */
  function Deferral(m: Proc): Delta
    requires m.Moving? && m.stage.Deferring?
  {
    Delta(m.base.op.wallet, map[m.id := m.stage.row], None, None, {}, map[], None)
  }

  ghost predicate DeferReady(cfg: Config, db: DB, clock: Time, m: Proc)
    requires ValidConfig(cfg)
  {
    m.Moving? && m.stage.Deferring? && MovingOk(cfg, db, clock, m)
  }

  lemma DeferralIsTheWrite(db: DB, m: Proc)
    requires m.Moving? && m.stage.Deferring?
    ensures Merge(db, Deferral(m)) == db.(rows := db.rows[m.id := m.stage.row])
  {
    assert db.rows + map[m.id := m.stage.row] == db.rows[m.id := m.stage.row];
    assert (db.holds - {}) + map[] == db.holds;
  }

  /** The schedule moves or the operation fails; the attempts made are not
      counted again. */
  lemma DeferralFacts(cfg: Config, db: DB, clock: Time, m: Proc)
    requires ValidConfig(cfg) && DeferReady(cfg, db, clock, m) && RowShapes(db, clock)
    ensures m.id in db.rows && db.rows[m.id] == m.base && m.base.status == PendingReference
    ensures m.stage.row == DeferredRow(cfg, m.id, m.base, m.now) && m.stage.row.op == m.base.op && m.stage.row.attempts == m.base.attempts
    ensures m.stage.row.status == PendingReference || m.stage.row.status == Failed
    ensures RowShape(m.stage.row, clock)
    ensures m.base.op.wallet in db.wallets && m.base.op.kind != Opening
  {
    hide Backoff.Next;
    assert RowShape(m.base, clock);
    Backoff.NextIsClamped(cfg.backoff, m.base.attempts, m.now, m.base.deadline, m.id);
  }

  lemma DeferralKeepsHistory(cfg: Config, db: DB, clock: Time, m: Proc)
    requires ValidConfig(cfg) && DeferReady(cfg, db, clock, m) && RowShapes(db, clock)
    requires ReversalRules(db) && Ledgers(db) && Nets(db)
    ensures var after := Merge(db, Deferral(m)); ReversalRules(after) && Ledgers(after) && Nets(after)
  {
    hide MovingOk, Merge, Resolution, OnePerKind, HoldsExact, Ledgers, Nets, RowShapes, DeferredRow, RowShape;
    var d := Deferral(m);
    DeferralFacts(cfg, db, clock, m);
    assert SettlesOnly(db, d, m.id) && OwnsRows(db, d) && MovesLedger(db, d, false);
    PlainMergeKeepsReversals(db, d, m.id);
    MergeKeepsLedgers(db, d, false);
    MergeIsSettleStep(db, d, m.id, m.id);
    SettleKeepsNets(db, Merge(db, d), false, m.id, m.id, None);
  }

  lemma DeferralKeepsTables(cfg: Config, db: DB, clock: Time, m: Proc)
    requires ValidConfig(cfg) && DeferReady(cfg, db, clock, m) && Tables(db, clock)
    ensures Tables(Merge(db, Deferral(m)), clock)
  {
    hide MovingOk, ReversalRules, Ledgers, Nets, DeferredRow, RowShape, KeysUnique, InboxBacked, Clashes;
    var after := Merge(db, Deferral(m));
    DeferralFacts(cfg, db, clock, m);
    DeferralKeepsHistory(cfg, db, clock, m);
    KeysStayUnique(db, after, m.id);
    InboxStaysBacked(db, after);
  }

  lemma DeferralKeepsAwake(cfg: Config, db: DB, clock: Time, m: Proc, defective: set<WalletId>)
    requires ValidConfig(cfg) && DeferReady(cfg, db, clock, m) && RowShapes(db, clock) && AwakeOn(db, defective)
    ensures AwakeOn(Merge(db, Deferral(m)), defective + {m.base.op.wallet})
  {
    hide MovingOk, DeferredRow, RowShape, RowShapes;
    DeferralFacts(cfg, db, clock, m);
    var after := Merge(db, Deferral(m));
    forall x, t | WaitsOnProcessed(after, x, t) && after.rows[x].op.wallet !in defective + {m.base.op.wallet}
      ensures after.rows[x].nextAttempt == Some(after.rows[t].updatedAt)
    {
      assert WaitsOnProcessed(db, x, t);
    }
  }

  // ----- An opening ----------------------------------------------------------

  ghost predicate OpenReady(cfg: Config, db: DB, clock: Time, x: Proc)
    requires ValidConfig(cfg)
  {
    x.OpeningWallet? && x.step.Announced? && ProcOk(cfg, db, clock, x)
  }

  /** An opening adds a wallet and, with money, one processed row and its entry. */
  ghost predicate Opens(db: DB, after: DB, o: OpenCommand, now: Time) {
    && o.wallet !in db.wallets && (o.amount != 0 ==> o.tx !in db.rows) && 0 <= o.amount <= MAX_MINOR
    && after.wallets == db.wallets[o.wallet := OpenedWallet(o, now)]
    && after.holds == db.holds && after.inbox == db.inbox
    && (forall x :: x != o.wallet ==> CounterOf(after, x) == CounterOf(db, x))
    && (if o.amount == 0 then after.rows == db.rows && after.ledger == db.ledger
        else
          && after.rows == db.rows[o.tx := OpeningRow(o, now)]
          && after.ledger == db.ledger[o.wallet := [Entry(o.tx, Credit, o.amount, 0, o.amount, 1, now)]])
  }

  lemma OpeningOpens(cfg: Config, db: DB, clock: Time, x: Proc)
    requires ValidConfig(cfg) && OpenReady(cfg, db, clock, x)
    ensures Opens(db, Opened(db, x.open, x.step.now), x.open, x.step.now)
  {
  }

  lemma OpeningKeepsReversals(db: DB, after: DB, o: OpenCommand, now: Time)
    requires Opens(db, after, o, now) && ReversalRules(db)
    ensures ReversalRules(after)
  {
    hide Resolution, OnePerKind, HoldsExact;
    assert HistoryStep(db, after, false, o.tx, o.tx);
    PlainStep(db, after, o.tx);
  }

  lemma OpeningKeepsLedger(db: DB, after: DB, o: OpenCommand, now: Time, w: WalletId)
    requires Opens(db, after, o, now) && LedgerFor(db, w) && (LedgerOf(db, w) != [] ==> w in db.wallets)
    ensures LedgerFor(after, w) && (LedgerOf(after, w) != [] ==> w in after.wallets)
    ensures w != o.wallet || o.amount == 0 ==> LedgerOf(after, w) == LedgerOf(db, w)
    ensures w == o.wallet ==> LedgerOf(db, w) == []
  {
    var l := LedgerOf(db, w);
    forall i | 0 <= i < |l|
      ensures OnWallet(after, l[i].tx, w) && after.rows[l[i].tx].status == Processed
      ensures w in after.wallets ==> InCurrency(after, l[i].tx, w)
    {
      assert OnWallet(db, l[i].tx, w);
      assert w in db.wallets ==> InCurrency(db, l[i].tx, w);
    }
  }

  lemma OpeningKeepsLedgers(db: DB, after: DB, o: OpenCommand, now: Time)
    requires Opens(db, after, o, now) && Ledgers(db)
    ensures Ledgers(after)
    ensures forall w :: w != o.wallet || o.amount == 0 ==> LedgerOf(after, w) == LedgerOf(db, w)
    ensures LedgerOf(db, o.wallet) == []
  {
    hide LedgerFor, Opens;
    forall w
      ensures LedgerFor(after, w) && (LedgerOf(after, w) != [] ==> w in after.wallets)
      ensures w != o.wallet || o.amount == 0 ==> LedgerOf(after, w) == LedgerOf(db, w)
      ensures w == o.wallet ==> LedgerOf(db, w) == []
    {
      assert LedgerFor(db, w);
      OpeningKeepsLedger(db, after, o, now, w);
    }
  }

  lemma OpeningKeepsNets(db: DB, after: DB, o: OpenCommand, now: Time)
    requires Opens(db, after, o, now) && ReversalRules(db) && ReversalRules(after) && Ledgers(db) && Nets(db)
    ensures Nets(after)
  {
    hide Ledgers, Nets, Resolution, OnePerKind, HoldsExact;
    if o.amount == 0 {
      HistoryKeepsNets(db, after);
    } else {
      OpeningKeepsLedgers(db, after, o, now);
      var e := Entry(o.tx, Credit, o.amount, 0, o.amount, 1, now);
      assert HistoryStep(db, after, false, o.tx, o.tx);
      assert LedgerStep(db, after, o.wallet, Some(e));
      SettleKeepsNets(db, after, false, o.tx, o.tx, Some(e));
    }
  }

  lemma OpeningKeepsWallets(cfg: Config, db: DB, clock: Time, x: Proc)
    requires ValidConfig(cfg) && OpenReady(cfg, db, clock, x) && WalletsSound(db, clock)
    ensures WalletsSound(Opened(db, x.open, x.step.now), clock)
  {
  }

  lemma OpeningKeepsTables(cfg: Config, db: DB, clock: Time, x: Proc)
    requires ValidConfig(cfg) && OpenReady(cfg, db, clock, x) && Tables(db, clock)
    ensures Tables(Opened(db, x.open, x.step.now), clock)
  {
    hide ReversalRules, Ledgers, Nets, KeysUnique, InboxBacked, Clashes, Opened, WalletsSound;
    var o, after := x.open, Opened(db, x.open, x.step.now);
    OpeningKeepsWallets(cfg, db, clock, x);
    OpeningOpens(cfg, db, clock, x);
    OpeningKeepsReversals(db, after, o, x.step.now);
    OpeningKeepsLedgers(db, after, o, x.step.now);
    OpeningKeepsNets(db, after, o, x.step.now);
    KeysStayUnique(db, after, o.tx);
    InboxStaysBacked(db, after);
  }

  lemma OpeningKeepsAwake(db: DB, after: DB, o: OpenCommand, now: Time, clock: Time, defective: set<WalletId>)
    requires Opens(db, after, o, now) && AwakeOn(db, defective)
    ensures AwakeOn(after, defective)
  {
    forall x, t | WaitsOnProcessed(after, x, t) && after.rows[x].op.wallet !in defective
      ensures after.rows[x].nextAttempt == Some(after.rows[t].updatedAt)
    {
      assert WaitsOnProcessed(db, x, t);
    }
  }

  // ----- Frames --------------------------------------------------------------

  lemma PublishFrame(cfg: Config, db: DB, clock: Time, m: Proc)
    requires ValidConfig(cfg) && CommitReady(cfg, db, clock, m) && ReversalRules(db) && Ledgers(db)
    ensures Frame(db, Merge(db, m.stage.delta), m.base.op.wallet, Held(m))
  {
    hide StageOk, ReversalRules, StagesHold, StagesMoney, StagesRows, Clashes, Merge, Held, Ledgers, StagesHold;
    ReadyStages(cfg, db, clock, m);
    ReadyIsFit(cfg, db, clock, m);
    PublishRowsFrame(cfg, db, clock, m);
    PublishRestFrame(db, m, m.stage.out, m.stage.delta);
    PublishWalletsFrame(db, m, m.stage.out, m.stage.delta);
    assert Merge(db, m.stage.delta).inbox == db.inbox by { MergeInbox(db, m.stage.delta); }
  }

  lemma MergeInbox(db: DB, d: Delta)
    ensures Merge(db, d).inbox == db.inbox
  {
  }

  lemma PublishRowsFrame(cfg: Config, db: DB, clock: Time, m: Proc)
    requires ValidConfig(cfg) && CommitReady(cfg, db, clock, m)
    ensures RowsFrame(db, Merge(db, m.stage.delta), m.base.op.wallet, Held(m))
  {
    hide StageOk, StagesHold, StagesMoney, Clashes, NextAttempt, StageHeld;
    ReadyStages(cfg, db, clock, m);
  }

  lemma PublishWalletsFrame(db: DB, m: Proc, out: Outcome, d: Delta)
    requires m.Moving? && StagesMoney(db, m, out, d) && m.base.op.wallet in db.wallets
    ensures WalletsFrame(db, Merge(db, d), m.base.op.wallet, Held(m))
  {
    hide ChainAccepts, StageHeld, CallerHeld;
  }

  lemma PublishRestFrame(db: DB, m: Proc, out: Outcome, d: Delta)
    requires m.Moving? && ReversalRules(db) && StagesMoney(db, m, out, d) && StagesHold(db, m, out, d) && OutcomeFits(db, m, out)
    ensures RestFrame(db, Merge(db, d), m.base.op.wallet)
  {
    hide ReversalRules, StagesHold, OutcomeFits, ChainAccepts;
    HoldsMoveOnTheWallet(db, m, out, d);
  }

  /** The maintainer touches holds on the movement's own wallet only. */
  lemma HoldsMoveOnTheWallet(db: DB, m: Proc, out: Outcome, d: Delta)
    requires m.Moving? && ReversalRules(db) && StagesHold(db, m, out, d) && OutcomeFits(db, m, out)
    ensures forall x :: x in d.released || x in d.held ==> OnWallet(db, x, m.base.op.wallet)
  {
    hide KindTaken, RowsOwned, OnePerKind, HoldsExact, Resolution;
    if TakesHold(out.row) {
      var t := out.row.resolved.value;
      assert ResolvesTo(db, m.base.op, t);
      forall x | x in d.released
        ensures OnWallet(db, x, m.base.op.wallet)
      {
        HolderShares(db, x, t);
      }
    }
  }

  lemma DeferralFrame(cfg: Config, db: DB, clock: Time, m: Proc)
    requires ValidConfig(cfg) && DeferReady(cfg, db, clock, m) && RowShapes(db, clock)
    ensures Frame(db, Merge(db, Deferral(m)), m.base.op.wallet, Held(m))
  {
    hide MovingOk, DeferredRow, RowShape, StageHeld, CallerHeld;
    DeferralFacts(cfg, db, clock, m);
  }

  lemma OpeningFrame(cfg: Config, db: DB, clock: Time, x: Proc)
    requires ValidConfig(cfg) && OpenReady(cfg, db, clock, x) && Ledgers(db)
    ensures Frame(db, Opened(db, x.open, x.step.now), x.open.wallet, Held(x))
  {
    hide Ledgers, Opened, LedgerOf, CounterOf;
    OpeningOpens(cfg, db, clock, x);
    OpeningKeepsLedgers(db, Opened(db, x.open, x.step.now), x.open, x.step.now);
  }

  lemma InboxExtendsFrame(db: DB, after: DB, w: WalletId, held: set<Resource>, cmd: Command, claimed: bool)
    requires Frame(db, after, w, held) && ClaimOk(after, cmd, claimed) && InboxHeld(cmd, claimed) <= held
    ensures Frame(db, WithInbox(after, cmd, claimed), w, held)
  {
    if claimed {
      assert InboxRow(cmd.message.value) in held;
    }
  }

  // ----- The book ------------------------------------------------------------

  lemma SameBook(db: DB, after: DB)
    requires forall x :: x in db.rows ==> x in after.rows && after.rows[x].op == db.rows[x].op
    requires forall x :: x in after.rows && x !in db.rows ==> !External(after.rows[x])
    ensures BookOf(after) == BookOf(db)
  {
  }

  /** A recorded submission is one atomic insert. */
  lemma RecordsAtomically(db: DB, after: DB, cmd: Command)
    requires cmd.id !in db.rows && !Clashes(db, cmd.op) && cmd.op.kind != Opening
    requires forall x :: x in db.rows ==> x in after.rows && after.rows[x].op == db.rows[x].op
    requires forall x :: x in after.rows && x !in db.rows ==> x == cmd.id
    requires cmd.id in after.rows && after.rows[cmd.id].op == cmd.op
    ensures Atomic(BookOf(db), cmd, Recorded(cmd.id), BookOf(after))
    ensures BookOf(after) == BookOf(db)[cmd.id := cmd.op]
  {
    forall r
      ensures !HasKey(BookOf(db), r, cmd.op) && !HasExternal(BookOf(db), r, cmd.op)
    {
      assert !KeyAt(db, r, cmd.op.provider, cmd.op.key) && !ExternalAt(db, r, cmd.op.provider, cmd.op.external);
    }
  }
}
