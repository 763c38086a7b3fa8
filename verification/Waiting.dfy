/** How long a parked operation may wait, over whole runs: its attempts are
    bounded, its deadline is the end of it, and each try is pushed out. */
module Waiting {
  import opened Prelude
  import opened Domain
  import opened Store
  import opened Reversals
  import opened Netting
  import opened Movement
  import opened MovementInvariant
  import opened MovementSteps
  import opened MovementDelta
  import opened MovementCommit
  import opened MovementSafety
  import opened MovementRuns
  import Backoff

  /** No parked row has been tried more often than the policy allows. */
  ghost predicate WithinBudget(cfg: Config, db: DB) {
    forall id :: id in db.rows && db.rows[id].status == PendingReference ==> db.rows[id].attempts <= cfg.wait.maxAttempts
  }

  /** What a movement about to commit writes for its own row, if it parks it: one
      more attempt, within the budget, before the deadline, and a next attempt on
      time. */
  lemma ParksWithinBudget(cfg: Config, db: DB, clock: Time, m: Proc)
    requires ValidConfig(cfg) && CommitReady(cfg, db, clock, m) && m.id in m.stage.delta.rows
    requires m.stage.delta.rows[m.id].status == PendingReference
    ensures var row := m.stage.delta.rows[m.id];
            && row.attempts == m.base.attempts + 1 <= cfg.wait.maxAttempts
            && (m.base.deadline.Some? ==> m.now < m.base.deadline.value && row.deadline == m.base.deadline)
            && (m.base.deadline.None? ==> row.deadline == Some(m.now + cfg.wait.ttl))
            && Backoff.OnTime(cfg.backoff, row.attempts, m.now, row.deadline, row.nextAttempt)
  {
    hide ViewSound, SettleOf, Store.Wake, StagesMoney, StagesHold, Backoff.Next, Backoff.OnTime, Clashes;
    ReadyStages(cfg, db, clock, m);
    var out := m.stage.out;
    WaitingEndsExactly(m.id, m.base, m.wallet, m.stage.view, cfg.wait, m.now);
    Backoff.NextIsOnTime(cfg.backoff, out.row.attempts, m.now, out.row.deadline, m.id);
  }

  lemma PublishKeepsBudget(cfg: Config, db: DB, clock: Time, m: Proc)
    requires ValidConfig(cfg) && CommitReady(cfg, db, clock, m) && WithinBudget(cfg, db)
    ensures WithinBudget(cfg, Merge(db, m.stage.delta))
  {
    hide MovingOk, StagesMoney, StagesHold, NextAttempt;
    ReadyStages(cfg, db, clock, m);
    if m.stage.delta.rows[m.id].status == PendingReference {
      ParksWithinBudget(cfg, db, clock, m);
    }
  }

  lemma CommitKeepsBudget(cfg: Config, s: State, t: State, p: Pid, reported: bool)
    requires ValidConfig(cfg) && Inv(cfg, s) && WithinBudget(cfg, s.db) && CommitStep(s, p, reported, t)
    ensures WithinBudget(cfg, t.db)
  {
    hide Tables, AwakeOn, Exclusive, BookOf, History, AnswerLogged, Merge, StageOk, CallerOk;
    var m := s.procs[p];
    assert ProcOk(cfg, s.db, s.clock, m);
    if m.Moving? && m.stage.Appended? {
      PublishKeepsBudget(cfg, s.db, s.clock, m);
    } else if m.Moving? {
      TablesReversals(s.db, s.clock);
      DeferralFacts(cfg, s.db, s.clock, m);
    }
  }

  lemma StepKeepsBudget(cfg: Config, s: State, step: Step, t: State)
    requires ValidConfig(cfg) && Inv(cfg, s) && WithinBudget(cfg, s.db) && Next(cfg, s, step, t)
    ensures WithinBudget(cfg, t.db)
  {
    hide Inv, CommitStep, WithinBudget, Held, Unblocked, IsView, ContinueOf, SettleOf, Store.Wake, FoundByKey, FoundByExternal;
    if step.Commit? {
      CommitKeepsBudget(cfg, s, t, step.p, step.reported);
    }
  }

  lemma {:induction false} RunsKeepBudget(cfg: Config, states: seq<State>, steps: seq<Step>, i: nat)
    requires ValidConfig(cfg) && IsRun(cfg, states, steps) && i <= |steps|
    ensures WithinBudget(cfg, states[i].db)
  {
    hide Inv, Next;
    if i > 0 {
      RunsKeepBudget(cfg, states, steps, i - 1);
      RunsAreSafe(cfg, states, steps, i - 1);
      var step := steps[i - 1];
      StepKeepsBudget(cfg, states[i - 1], step, states[i]);
    }
  }

  /** In every reachable state a parked operation has attempts to its name, and no
      more than the policy allows. */
  lemma AttemptsAreBounded(cfg: Config, s: State, id: TransactionId)
    requires ValidConfig(cfg) && Reachable(cfg, s) && id in s.db.rows && s.db.rows[id].status == PendingReference
    ensures 1 <= s.db.rows[id].attempts <= cfg.wait.maxAttempts
  {
    hide Inv, Next;
    var states, steps :| IsRun(cfg, states, steps) && states[|steps|] == s;
    RunsKeepBudget(cfg, states, steps, |steps|);
    RunsAreSafe(cfg, states, steps, |steps|);
    ParkedIsCounted(cfg, s, id);
  }

  lemma ParkedIsCounted(cfg: Config, s: State, id: TransactionId)
    requires ValidConfig(cfg) && Inv(cfg, s) && id in s.db.rows && s.db.rows[id].status == PendingReference
    ensures s.db.rows[id].attempts > 0
  {
    hide AwakeOn, Exclusive, BookOf, History, AnswerLogged, ProcOk, KeysUnique, ReversalRules, Ledgers, Nets, WalletsSound, InboxBacked;
    assert RowShape(s.db.rows[id], s.clock);
  }

  /** Nothing waits past its deadline: a turn sampled at or past it commits the
      operation settled or failed, never parked. A turn that does park it has
      counted the attempt, or met a defect and counted none, and has put the next
      try neither before its wait is over nor beyond it, but for the deadline. */
  lemma TheDeadlineEndsTheWait(cfg: Config, s: State, t: State, p: Pid, reported: bool)
    requires ValidConfig(cfg) && Reachable(cfg, s) && CommitStep(s, p, reported, t) && s.procs[p].Moving?
    ensures var m := s.procs[p];
            && m.id in t.db.rows
            && (m.base.deadline.Some? && m.now >= m.base.deadline.value ==> t.db.rows[m.id].status != PendingReference)
            && (t.db.rows[m.id].status == PendingReference ==>
                  var row := t.db.rows[m.id];
                  && row.attempts == m.base.attempts + (if m.stage.Deferring? then 0 else 1)
                  && Backoff.OnTime(cfg.backoff, row.attempts, m.now, row.deadline, row.nextAttempt))
  {
    hide Reachable, Tables, AwakeOn, Exclusive, BookOf, History, AnswerLogged, StageOk, CallerOk, Backoff.OnTime, Backoff.Next;
    ReachableIsSafe(cfg, s);
    var m := s.procs[p];
    assert ProcOk(cfg, s.db, s.clock, m);
    if m.stage.Appended? {
      AppendedParks(cfg, s.db, s.clock, m);
    } else {
      TablesReversals(s.db, s.clock);
      DeferralFacts(cfg, s.db, s.clock, m);
      Backoff.NextIsOnTime(cfg.backoff, m.base.attempts, m.now, m.base.deadline, m.id);
    }
  }

  lemma AppendedParks(cfg: Config, db: DB, clock: Time, m: Proc)
    requires ValidConfig(cfg) && CommitReady(cfg, db, clock, m)
    ensures var after := Merge(db, m.stage.delta);
            && m.id in m.stage.delta.rows && m.id in after.rows && after.rows[m.id] == m.stage.delta.rows[m.id]
            && (after.rows[m.id].status == PendingReference ==>
                  var row := after.rows[m.id];
                  && row.attempts == m.base.attempts + 1
                  && (m.base.deadline.Some? ==> m.now < m.base.deadline.value)
                  && Backoff.OnTime(cfg.backoff, row.attempts, m.now, row.deadline, row.nextAttempt))
  {
    hide MovingOk, StagesMoney, StagesHold, NextAttempt, Backoff.OnTime;
    ReadyStages(cfg, db, clock, m);
    if m.stage.delta.rows[m.id].status == PendingReference {
      ParksWithinBudget(cfg, db, clock, m);
    }
  }
}
