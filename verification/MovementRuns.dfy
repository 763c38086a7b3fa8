/** The invariant over every step and every run of the write path, and what it
    means there. */
module MovementRuns {
  import opened Prelude
  import opened Domain
  import opened Store
  import opened Reversals
  import opened Netting
  import opened Movement
  import opened MovementInvariant
  import opened MovementSteps
  import opened MovementFrame
  import opened MovementDelta
  import opened MovementCommit
  import opened MovementSafety

  // ----- Commits -------------------------------------------------------------

  /** What every commit has in common: the tables stay sound, only the
      committing transaction's own wallet and locks are touched, and that
      transaction is over. */
  ghost predicate Commits(cfg: Config, s: State, t: State, p: Pid, w: WalletId)
    requires ValidConfig(cfg)
  {
    && p in s.procs && t.clock == s.clock && t.deleted == s.deleted
    && Frame(s.db, t.db, w, Held(s.procs[p])) && Tables(t.db, t.clock)
    && AwakeOn(t.db, t.defective) && History(t.log, BookOf(t.db))
    && (forall e :: e in s.log ==> e in t.log)
    && t.procs - {p} == s.procs - {p}
    && (p in t.procs ==>
          ProcOk(cfg, t.db, t.clock, t.procs[p]) && AnswerLogged(t.log, t.procs[p]) && Held(t.procs[p]) == {})
  }

  lemma OtherProcs(s: State, t: State, p: Pid, q: Pid)
    requires t.procs - {p} == s.procs - {p} && q != p && q in t.procs
    ensures q in s.procs && t.procs[q] == s.procs[q]
  {
    assert q in t.procs - {p};
    assert (t.procs - {p})[q] == (s.procs - {p})[q];
  }

  lemma CommitsKeep(cfg: Config, s: State, t: State, p: Pid, w: WalletId)
    requires ValidConfig(cfg) && Inv(cfg, s) && Commits(cfg, s, t, p, w)
    ensures Inv(cfg, t)
  {
    hide Tables, AwakeOn, ProcOk, Held, History, BookOf, Backed, Frame, AnswerLogged;
    forall q | q in t.procs
      ensures ProcOk(cfg, t.db, t.clock, t.procs[q]) && AnswerLogged(t.log, t.procs[q])
    {
      if q != p {
        OtherProcs(s, t, p, q);
        TablesReversals(s.db, s.clock);
        TablesReversals(t.db, t.clock);
        ProcStays(cfg, s.db, t.db, s.clock, w, Held(s.procs[p]), s.procs[q]);
        LogKeeps(s.log, t.log, s.procs[q]);
      }
    }
    forall q, r | q in t.procs && r in t.procs && q != r
      ensures Held(t.procs[q]) !! Held(t.procs[r])
    {
      if q != p { OtherProcs(s, t, p, q); }
      if r != p { OtherProcs(s, t, p, r); }
    }
    forall x | x in t.deleted
      ensures Backed(t.db, x.1)
    {
      FrameBacks(s.db, t.db, w, Held(s.procs[p]), x.1);
    }
  }

  lemma TablesReversals(db: DB, clock: Time)
    requires Tables(db, clock)
    ensures ReversalRules(db) && Ledgers(db) && RowShapes(db, clock) && KeysUnique(db)
  {
  }

  lemma LogKeeps(log: seq<LogEntry>, after: seq<LogEntry>, proc: Proc)
    requires AnswerLogged(log, proc) && forall e :: e in log ==> e in after
    ensures AnswerLogged(after, proc)
  {
  }

  lemma FrameBacks(db: DB, after: DB, w: WalletId, held: set<Resource>, op: Operation)
    requires Frame(db, after, w, held) && Backed(db, op)
    ensures Backed(after, op)
  {
    BackedStays(db, after, op);
  }

  // ----- The five commits ----------------------------------------------------

  lemma ReplayCommits(cfg: Config, s: State, t: State, p: Pid, reported: bool)
    requires ValidConfig(cfg) && Inv(cfg, s) && CommitStep(s, p, reported, t)
    requires s.procs[p].Submitting?
    ensures exists w :: Commits(cfg, s, t, p, w)
  {
    hide AwakeOn, History, BookOf, Tables, Frame;
    var x := s.procs[p];
    assert ProcOk(cfg, s.db, s.clock, x) && AnswerLogged(s.log, x);
    ReplayTables(s.db, s.clock, x.cmd, x.point.claimed, x.point.id, x.point.row);
    var after := WithInbox(s.db, x.cmd, x.point.claimed);
    SameBook(s.db, after);
    RowsKeepAwake(s.db, after, s.clock, s.defective);
    var w := Unused(s.db.wallets.Keys);
    ReplayFrame(s.db, x.cmd, x.point.claimed, w, Held(x));
    assert Commits(cfg, s, t, p, w);
  }

  lemma {:induction false} Unused(taken: set<WalletId>) returns (w: WalletId)
    ensures forall x :: x in taken ==> x < w
  {
    if taken == {} {
      w := 0;
    } else {
      var x :| x in taken;
      var y := Unused(taken - {x});
      w := Max(x + 1, y);
      assert forall z :: z in taken ==> z == x || z in taken - {x};
    }
  }

  lemma RowsKeepAwake(db: DB, after: DB, clock: Time, defective: set<WalletId>)
    requires AwakeOn(db, defective) && after.rows == db.rows
    ensures AwakeOn(after, defective)
  {
    assert forall x, t :: WaitsOnProcessed(after, x, t) <==> WaitsOnProcessed(db, x, t);
  }

  lemma ReplayTables(db: DB, clock: Time, cmd: Command, claimed: bool, id: TransactionId, row: Row)
    requires Tables(db, clock) && AnswersFrom(db, cmd.op, id, row)
    ensures Tables(WithInbox(db, cmd, claimed), clock)
  {
    hide KeysUnique, ReversalRules, Ledgers, Nets, RowShapes, WalletsSound, InboxBacked;
    assert Backed(db, cmd.op);
    WithInboxBacked(db, cmd, claimed);
    InboxKeepsTables(db, WithInbox(db, cmd, claimed), clock);
  }

  /** A replay touches no wallet: w may be any that does not exist. */
  lemma ReplayFrame(db: DB, cmd: Command, claimed: bool, w: WalletId, held: set<Resource>)
    requires ClaimOk(db, cmd, claimed) && InboxHeld(cmd, claimed) <= held && w !in db.wallets
    ensures Frame(db, WithInbox(db, cmd, claimed), w, held)
  {
    InboxExtendsFrame(db, db, w, held, cmd, claimed);
  }

  lemma SubmitCommits(cfg: Config, s: State, t: State, p: Pid, reported: bool)
    requires ValidConfig(cfg) && Inv(cfg, s) && CommitStep(s, p, reported, t)
    requires s.procs[p].Moving? && s.procs[p].caller.BySubmit?
    ensures Commits(cfg, s, t, p, s.procs[p].base.op.wallet)
  {
    hide Tables, AwakeOn, Frame, History, Atomic, BookOf, Held, AddsOneRow, CallerOk, StageOk, Merge, WithInbox, AnswersFrom;
    var m := s.procs[p];
    assert ProcOk(cfg, s.db, s.clock, m) && CommitReady(cfg, s.db, s.clock, m);
    SubmitWrites(cfg, s.db, s.clock, m, s.defective);
    var cmd := m.caller.cmd;
    LogGrows(s.log, BookOf(s.db), LogEntry(cmd, Recorded(m.id)), BookOf(t.db));
    assert Held(t.procs[p]) == {} by { AnsweredHoldsNothing(t.procs[p]); }
    assert LogEntry(cmd, Recorded(m.id)) in t.log;
  }

  lemma AnsweredHoldsNothing(x: Proc)
    requires x.Answered?
    ensures Held(x) == {}
  {
  }

  /** Everything a recorded submission publishes. */
  lemma SubmitWrites(cfg: Config, db: DB, clock: Time, m: Proc, defective: set<WalletId>)
    requires ValidConfig(cfg) && CommitReady(cfg, db, clock, m) && m.caller.BySubmit?
    requires Tables(db, clock) && AwakeOn(db, defective)
    ensures m.id in m.stage.delta.rows && m.caller.cmd.id == m.id
    ensures var after := WithInbox(Merge(db, m.stage.delta), m.caller.cmd, m.caller.claimed);
            && Tables(after, clock) && AwakeOn(after, defective) && Frame(db, after, m.base.op.wallet, Held(m))
            && Atomic(BookOf(db), m.caller.cmd, Recorded(m.id), BookOf(after))
            && BookOf(after) == BookOf(db)[m.id := m.caller.cmd.op]
            && AnswersFrom(after, m.caller.cmd.op, m.id, m.stage.delta.rows[m.id])
  {
    hide Tables, AwakeOn, Frame, Atomic, BookOf, Held, AddsOneRow, StageOk, Merge, Clashes, Carries;
    var cmd, claimed := m.caller.cmd, m.caller.claimed;
    var merged := Merge(db, m.stage.delta);
    TablesReversals(db, clock);
    ReadyCarries(cfg, db, clock, m);
    PublishKeepsTables(cfg, db, clock, m);
    PublishKeepsAwake(cfg, db, clock, m, defective);
    PublishFrame(cfg, db, clock, m);
    SubmitRow(cfg, db, clock, m);
    assert Backed(merged, cmd.op);
    SubmitInbox(merged, clock, cmd, claimed);
    var after := WithInbox(merged, cmd, claimed);
    RowsKeepAwake(merged, after, clock, defective);
    MergeInbox(db, m.stage.delta);
    InboxIsHeld(m);
    InboxExtendsFrame(db, merged, m.base.op.wallet, Held(m), cmd, claimed);
    RecordsAtomically(db, after, cmd);
  }

  lemma InboxIsHeld(m: Proc)
    requires m.Moving? && m.caller.BySubmit?
    ensures InboxHeld(m.caller.cmd, m.caller.claimed) <= Held(m)
  {
    hide StageHeld;
  }

  lemma SubmitRow(cfg: Config, db: DB, clock: Time, m: Proc)
    requires ValidConfig(cfg) && CommitReady(cfg, db, clock, m) && m.caller.BySubmit?
    ensures var after := Merge(db, m.stage.delta);
            && m.id in m.stage.delta.rows && m.id in after.rows && after.rows[m.id] == m.stage.delta.rows[m.id]
            && after.rows[m.id].op == m.caller.cmd.op && m.caller.cmd.op.kind != Opening
            && (forall x :: x in db.rows ==> x in after.rows && after.rows[x].op == db.rows[x].op)
            && (forall x :: x in after.rows && x !in db.rows ==> x == m.id)
            && KeyAt(after, m.id, m.caller.cmd.op.provider, m.caller.cmd.op.key)
            && after.rows[m.id].op == m.caller.cmd.op
  {
    hide StageOk, Clashes, StagesMoney, StagesHold, NextAttempt;
    ReadyStages(cfg, db, clock, m);
    PublishAddsOneRow(cfg, db, clock, m);
  }

  lemma SubmitInbox(db: DB, clock: Time, cmd: Command, claimed: bool)
    requires Tables(db, clock) && Backed(db, cmd.op)
    ensures Tables(WithInbox(db, cmd, claimed), clock)
  {
    hide KeysUnique, ReversalRules, Ledgers, Nets, RowShapes, WalletsSound, InboxBacked;
    WithInboxBacked(db, cmd, claimed);
    InboxKeepsTables(db, WithInbox(db, cmd, claimed), clock);
  }

  lemma ResumeCommits(cfg: Config, s: State, t: State, p: Pid, reported: bool)
    requires ValidConfig(cfg) && Inv(cfg, s) && CommitStep(s, p, reported, t)
    requires s.procs[p].Moving? && s.procs[p].stage.Appended? && s.procs[p].caller.ByResume?
    ensures Commits(cfg, s, t, p, s.procs[p].base.op.wallet)
  {
    hide Tables, AwakeOn, Frame, History, BookOf, Held, StageOk, Merge, Carries, RowShapes, ReversalRules, Ledgers, KeysUnique;
    var m := s.procs[p];
    assert ProcOk(cfg, s.db, s.clock, m) && CommitReady(cfg, s.db, s.clock, m);
    TablesReversals(s.db, s.clock);
    ReadyCarries(cfg, s.db, s.clock, m);
    PublishKeepsTables(cfg, s.db, s.clock, m);
    PublishKeepsAwake(cfg, s.db, s.clock, m, s.defective);
    PublishFrame(cfg, s.db, s.clock, m);
    ResumeBook(cfg, s.db, s.clock, m);
  }

  lemma ResumeBook(cfg: Config, db: DB, clock: Time, m: Proc)
    requires ValidConfig(cfg) && CommitReady(cfg, db, clock, m) && m.caller.ByResume?
    ensures BookOf(Merge(db, m.stage.delta)) == BookOf(db)
  {
    hide StageOk, Clashes, StagesMoney, StagesHold, NextAttempt, BookOf;
    PublishAddsOneRow(cfg, db, clock, m);
    SameBook(db, Merge(db, m.stage.delta));
  }

  lemma DeferCommits(cfg: Config, s: State, t: State, p: Pid, reported: bool)
    requires ValidConfig(cfg) && Inv(cfg, s) && CommitStep(s, p, reported, t)
    requires s.procs[p].Moving? && s.procs[p].stage.Deferring?
    ensures Commits(cfg, s, t, p, s.procs[p].base.op.wallet)
  {
    hide Tables, AwakeOn, Frame, History, BookOf, Held, Merge, RowShapes, ReversalRules, Ledgers, KeysUnique, RowShape, DeferredRow;
    var m := s.procs[p];
    assert ProcOk(cfg, s.db, s.clock, m) && DeferReady(cfg, s.db, s.clock, m);
    TablesReversals(s.db, s.clock);
    DeferralIsTheWrite(s.db, m);
    DeferralKeepsTables(cfg, s.db, s.clock, m);
    DeferralKeepsAwake(cfg, s.db, s.clock, m, s.defective);
    DeferralFrame(cfg, s.db, s.clock, m);
    DeferralFacts(cfg, s.db, s.clock, m);
    SameBook(s.db, t.db);
  }

  lemma OpenCommits(cfg: Config, s: State, t: State, p: Pid, reported: bool)
    requires ValidConfig(cfg) && Inv(cfg, s) && CommitStep(s, p, reported, t)
    requires s.procs[p].OpeningWallet?
    ensures Commits(cfg, s, t, p, s.procs[p].open.wallet)
  {
    hide Tables, AwakeOn, Frame, History, BookOf, Held, RowShapes, ReversalRules, Ledgers, KeysUnique;
    var x := s.procs[p];
    assert ProcOk(cfg, s.db, s.clock, x) && OpenReady(cfg, s.db, s.clock, x);
    TablesReversals(s.db, s.clock);
    OpeningOpens(cfg, s.db, s.clock, x);
    OpeningKeepsTables(cfg, s.db, s.clock, x);
    OpeningKeepsAwake(s.db, t.db, x.open, x.step.now, s.clock, s.defective);
    OpeningFrame(cfg, s.db, s.clock, x);
    SameBook(s.db, t.db);
  }

  lemma CommitKeeps(cfg: Config, s: State, t: State, p: Pid, reported: bool)
    requires ValidConfig(cfg) && Inv(cfg, s) && CommitStep(s, p, reported, t)
    ensures Inv(cfg, t)
  {
    hide Inv, Commits;
    match s.procs[p]
    case Submitting(_, _) =>
      ReplayCommits(cfg, s, t, p, reported);
      var w :| Commits(cfg, s, t, p, w);
      CommitsKeep(cfg, s, t, p, w);
    case Moving(caller, _, base, _, _, stage) =>
      if caller.BySubmit? {
        SubmitCommits(cfg, s, t, p, reported);
      } else if stage.Appended? {
        ResumeCommits(cfg, s, t, p, reported);
      } else {
        DeferCommits(cfg, s, t, p, reported);
      }
      CommitsKeep(cfg, s, t, p, base.op.wallet);
    case OpeningWallet(o, _) =>
      OpenCommits(cfg, s, t, p, reported);
      CommitsKeep(cfg, s, t, p, o.wallet);
  }

  // ----- Every run -----------------------------------------------------------

  lemma InitialHolds(cfg: Config)
    requires ValidConfig(cfg)
    ensures Inv(cfg, INITIAL)
  {
    assert BookOf(EMPTY) == map[];
  }

  /** Every step keeps the invariant. */
  lemma StepKeeps(cfg: Config, s: State, step: Step, t: State)
    requires ValidConfig(cfg) && Inv(cfg, s) && Next(cfg, s, step, t)
    ensures Inv(cfg, t)
  {
    hide Inv, SubmitStep, FindInboxStep, RecordInboxStep, ReadKeyStep, ReadExternalStep, LockWalletStep, StampStep, EnterExternalStep, RecordStep,
      ResolveStep, ReadReferenceStep, Movement.SettleStep, WakeStep, AppendStep, DeferStep, CommitStep, FaultStep,
      DeleteStep, ClaimStep, OpenStep, OpenInsertStep, OpenAppendStep;
    match step
    case Tick(now) => TickKeeps(cfg, s, t, now);
    case Submit(p, cmd) => SubmitKeeps(cfg, s, t, p, cmd);
    case FindInbox(p) => FindInboxKeeps(cfg, s, t, p);
    case RecordInbox(p) => RecordInboxKeeps(cfg, s, t, p);
    case ReadKey(p, found) => ReadKeyKeeps(cfg, s, t, p, found);
    case ReadExternal(p, found) => ReadExternalKeeps(cfg, s, t, p, found);
    case LockWallet(p) => LockWalletKeeps(cfg, s, t, p);
    case Stamp(p) => StampKeeps(cfg, s, t, p);
    case EnterExternal(p) => EnterExternalKeeps(cfg, s, t, p);
    case Record(p) => RecordKeeps(cfg, s, t, p);
    case Resolve(p, byKey, byExternal) => ResolveKeeps(cfg, s, t, p, byKey, byExternal);
    case ReadReference(p, view) => ReadReferenceKeeps(cfg, s, t, p, view);
    case Settle(p) => SettleKeeps(cfg, s, t, p);
    case Wake(p) => WakeKeeps(cfg, s, t, p);
    case Append(p) => AppendKeeps(cfg, s, t, p);
    case Defer(p) => DeferKeeps(cfg, s, t, p);
    case Commit(p, reported) => CommitKeeps(cfg, s, t, p, reported);
    case Fault(p) => FaultKeeps(cfg, s, t, p);
    case Crash(p) => Ends(cfg, s, t, p);
    case Delete(p) => DeleteKeeps(cfg, s, t, p);
    case Resume(_) => ResumeKeeps(cfg, s, t, step);
    case NextDue(_, _) => ResumeKeeps(cfg, s, t, step);
    case LockCandidate(_) => ResumeKeeps(cfg, s, t, step);
    case Claim(p) => ClaimKeeps(cfg, s, t, p);
    case Open(_, _) => OpenKeeps(cfg, s, t, step);
    case OpenInsert(_) => OpenKeeps(cfg, s, t, step);
    case OpenAppend(_) => OpenKeeps(cfg, s, t, step);
  }

  /** A run: any interleaving of any number of transactions. */
  ghost predicate IsRun(cfg: Config, states: seq<State>, steps: seq<Step>)
    requires ValidConfig(cfg)
  {
    && |states| == |steps| + 1 && states[0] == INITIAL
    && forall i {:trigger steps[i]} :: 0 <= i < |steps| ==> Next(cfg, states[i], steps[i], states[i + 1])
  }

  ghost predicate Reachable(cfg: Config, s: State)
    requires ValidConfig(cfg)
  {
    exists states, steps :: IsRun(cfg, states, steps) && states[|steps|] == s
  }

  lemma {:induction false} RunsAreSafe(cfg: Config, states: seq<State>, steps: seq<Step>, i: nat)
    requires ValidConfig(cfg) && IsRun(cfg, states, steps) && i <= |steps|
    ensures Inv(cfg, states[i])
  {
    hide Inv, Next;
    if i == 0 {
      InitialHolds(cfg);
    } else {
      RunsAreSafe(cfg, states, steps, i - 1);
      var step := steps[i - 1];
      StepKeeps(cfg, states[i - 1], step, states[i]);
    }
  }

  lemma ReachableIsSafe(cfg: Config, s: State)
    requires ValidConfig(cfg) && Reachable(cfg, s)
    ensures Inv(cfg, s)
  {
    hide Inv, Next;
    var states, steps :| IsRun(cfg, states, steps) && states[|steps|] == s;
    RunsAreSafe(cfg, states, steps, |steps|);
  }
}
