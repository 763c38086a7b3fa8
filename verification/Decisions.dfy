/** Each submission is decided at most once, by an entry of the log that is its
    own and was made after it began; and every answer given is that decision. */
module Decisions {
  import opened Prelude
  import opened Domain
  import opened Store
  import opened Movement
  import opened MovementInvariant
  import opened MovementRuns

  function CmdOf(proc: Proc): Option<Command> {
    match proc
    case Submitting(cmd, _) => Some(cmd)
    case Moving(BySubmit(cmd, _), _, _, _, _, _) => Some(cmd)
    case Answered(cmd, _) => Some(cmd)
    case _ => None
  }

  /** Nothing has been decided for this submission, and if it has been answered
      nothing will be. */
  predicate Undecided(proc: Proc) {
    match proc
    case Submitting(_, point) => !point.Replaying?
    case Moving(caller, _, _, _, _, _) => caller.BySubmit?
    case Answered(_, answer) => answer.NotFound? || answer.Unretryable?
    case _ => false
  }

  ghost predicate DecidedIn(log: seq<LogEntry>, attempt: nat) {
    exists i :: 0 <= i < |log| && log[i].cmd.attempt == attempt
  }

  /** The log: one entry a submission, made no earlier than it began. */
  ghost predicate LogInTurn(log: seq<LogEntry>, starts: seq<nat>) {
    && (forall i :: 0 <= i < |log| ==> log[i].cmd.attempt < |starts| && starts[log[i].cmd.attempt] <= i)
    && (forall i, j :: 0 <= i < j < |log| ==> log[i].cmd.attempt != log[j].cmd.attempt)
  }

  ghost predicate ProcInTurn(log: seq<LogEntry>, starts: seq<nat>, proc: Proc) {
    CmdOf(proc).Some? ==>
      && CmdOf(proc).value.attempt < |starts|
      && (Undecided(proc) ==> !DecidedIn(log, CmdOf(proc).value.attempt))
  }

  ghost predicate Apart(a: Proc, b: Proc) {
    CmdOf(a).Some? && CmdOf(b).Some? ==> CmdOf(a).value.attempt != CmdOf(b).value.attempt
  }

  ghost predicate InTurn(s: State) {
    && LogInTurn(s.log, s.starts)
    && (forall p :: p in s.procs ==> ProcInTurn(s.log, s.starts, s.procs[p]))
    && (forall p, q :: p in s.procs && q in s.procs && p != q ==> Apart(s.procs[p], s.procs[q]))
    && (forall a :: 0 <= a < |s.starts| ==> s.starts[a] <= |s.log|)
  }

  // ----- The three shapes of a step ------------------------------------------

  ghost predicate OthersStay(s: State, t: State, p: Pid) {
    forall q :: q != p && q in t.procs ==> q in s.procs && t.procs[q] == s.procs[q]
  }

  ghost predicate GoesOn(s: State, t: State, p: Pid) {
    && t.log == s.log && t.starts == s.starts && OthersStay(s, t, p)
    && (p in t.procs && CmdOf(t.procs[p]).Some? ==>
          && p in s.procs && CmdOf(t.procs[p]) == CmdOf(s.procs[p])
          && (Undecided(t.procs[p]) ==> Undecided(s.procs[p])))
  }

  ghost predicate IsDecided(s: State, t: State, p: Pid) {
    && p in s.procs && CmdOf(s.procs[p]).Some? && Undecided(s.procs[p])
    && t.starts == s.starts && OthersStay(s, t, p)
    && |t.log| == |s.log| + 1 && t.log[..|s.log|] == s.log && t.log[|s.log|].cmd == CmdOf(s.procs[p]).value
    && p in t.procs && CmdOf(t.procs[p]) == CmdOf(s.procs[p]) && !Undecided(t.procs[p])
  }

  ghost predicate Begins(s: State, t: State, p: Pid) {
    && t.log == s.log && t.starts == s.starts + [|s.log|] && OthersStay(s, t, p)
    && p in t.procs && CmdOf(t.procs[p]).Some? && CmdOf(t.procs[p]).value.attempt == |s.starts|
  }

  lemma LookUpShape(cfg: Config, s: State, step: Step, t: State)
    requires ValidConfig(cfg) && Next(cfg, s, step, t)
    requires step.ReadKey? || step.ReadExternal?
    ensures GoesOn(s, t, step.p) || IsDecided(s, t, step.p)
  {
    hide FoundByKey, FoundByExternal, SamePayload, KeyAt, ExternalAt;
  }

  lemma ResolveShape(cfg: Config, s: State, step: Step, t: State)
    requires ValidConfig(cfg) && Next(cfg, s, step, t) && step.Resolve?
    ensures GoesOn(s, t, step.p) || IsDecided(s, t, step.p)
  {
    hide FoundByKey, FoundByExternal, SamePayload, KeyAt, ExternalAt;
  }

  lemma InsertShape(cfg: Config, s: State, step: Step, t: State)
    requires ValidConfig(cfg) && Next(cfg, s, step, t)
    requires step.FindInbox? || step.RecordInbox? || step.LockWallet? || step.Stamp? || step.EnterExternal? || step.Record?
    ensures GoesOn(s, t, step.p)
  {
    hide Unblocked;
  }

  lemma MovementShape(cfg: Config, s: State, step: Step, t: State)
    requires ValidConfig(cfg) && Next(cfg, s, step, t)
    requires step.ReadReference? || step.Settle? || step.Wake? || step.Append? || step.Defer?
    ensures GoesOn(s, t, step.p)
  {
    hide Unblocked, IsView, ContinueOf, SettleOf, Store.Wake, DeferredRow;
  }

  lemma EndShape(cfg: Config, s: State, step: Step, t: State)
    requires ValidConfig(cfg) && Next(cfg, s, step, t)
    requires step.Commit? || step.Fault? || step.Crash? || step.Delete?
    ensures GoesOn(s, t, step.p) || IsDecided(s, t, step.p)
  {
    hide Merge, WithInbox, Opened;
  }

  lemma OtherShape(cfg: Config, s: State, step: Step, t: State)
    requires ValidConfig(cfg) && Next(cfg, s, step, t)
    requires step.Resume? || step.NextDue? || step.LockCandidate? || step.Claim? || step.Open? || step.OpenInsert? || step.OpenAppend?
    ensures GoesOn(s, t, step.p)
  {
    hide Unblocked, Held, DueAt;
  }

  lemma StepShape(cfg: Config, s: State, step: Step, t: State) returns (p: Pid)
    requires ValidConfig(cfg) && Next(cfg, s, step, t)
    ensures GoesOn(s, t, p) || IsDecided(s, t, p) || Begins(s, t, p)
  {
    hide FindInboxStep, RecordInboxStep, ReadKeyStep, ReadExternalStep, LockWalletStep, StampStep, EnterExternalStep,
      RecordStep, ResolveStep, ReadReferenceStep, Movement.SettleStep, WakeStep, AppendStep, DeferStep, CommitStep,
      FaultStep, DeleteStep, NextDueStep, LockCandidateStep, ClaimStep, OpenStep, OpenInsertStep, OpenAppendStep, Held;
    p := if step.Tick? then 0 else step.p;
    match step
    case Tick(_) =>
    case Submit(_, _) =>
    case FindInbox(_) => InsertShape(cfg, s, step, t);
    case RecordInbox(_) => InsertShape(cfg, s, step, t);
    case ReadKey(_, _) => LookUpShape(cfg, s, step, t);
    case ReadExternal(_, _) => LookUpShape(cfg, s, step, t);
    case LockWallet(_) => InsertShape(cfg, s, step, t);
    case Stamp(_) => InsertShape(cfg, s, step, t);
    case EnterExternal(_) => InsertShape(cfg, s, step, t);
    case Record(_) => InsertShape(cfg, s, step, t);
    case Resolve(_, _, _) => ResolveShape(cfg, s, step, t);
    case ReadReference(_, _) => MovementShape(cfg, s, step, t);
    case Settle(_) => MovementShape(cfg, s, step, t);
    case Wake(_) => MovementShape(cfg, s, step, t);
    case Append(_) => MovementShape(cfg, s, step, t);
    case Defer(_) => MovementShape(cfg, s, step, t);
    case Commit(_, _) => EndShape(cfg, s, step, t);
    case Fault(_) => EndShape(cfg, s, step, t);
    case Crash(_) => EndShape(cfg, s, step, t);
    case Delete(_) => EndShape(cfg, s, step, t);
    case _ => OtherShape(cfg, s, step, t);
  }

  // ----- Why turns are kept --------------------------------------------------

  lemma GoesOnKeeps(s: State, t: State, p: Pid)
    requires InTurn(s) && GoesOn(s, t, p)
    ensures InTurn(t)
  {
    hide Undecided, CmdOf, LogInTurn, DecidedIn;
  }

  lemma BeginsKeeps(s: State, t: State, p: Pid)
    requires InTurn(s) && Begins(s, t, p)
    ensures InTurn(t)
  {
    hide Undecided, CmdOf;
    assert forall a :: 0 <= a < |s.starts| ==> t.starts[a] == s.starts[a];
  }

  lemma LogExtends(log: seq<LogEntry>, after: seq<LogEntry>, starts: seq<nat>)
    requires LogInTurn(log, starts) && |after| == |log| + 1 && after[..|log|] == log
    requires var a := after[|log|].cmd.attempt; a < |starts| && starts[a] <= |log| && !DecidedIn(log, a)
    ensures LogInTurn(after, starts)
    ensures forall b :: DecidedIn(after, b) ==> DecidedIn(log, b) || b == after[|log|].cmd.attempt
  {
    assert forall i :: 0 <= i < |log| ==> after[i] == log[i];
  }

  lemma IsDecidedKeeps(s: State, t: State, p: Pid)
    requires InTurn(s) && IsDecided(s, t, p)
    ensures InTurn(t)
  {
    hide Undecided, CmdOf, LogInTurn, DecidedIn;
    assert ProcInTurn(s.log, s.starts, s.procs[p]);
    LogExtends(s.log, t.log, s.starts);
    forall q | q in t.procs
      ensures ProcInTurn(t.log, t.starts, t.procs[q])
    {
      if q != p {
        assert Apart(s.procs[p], s.procs[q]) && ProcInTurn(s.log, s.starts, s.procs[q]);
      }
    }
  }

  lemma {:induction false} RunsAreInTurn(cfg: Config, states: seq<State>, steps: seq<Step>, i: nat)
    requires ValidConfig(cfg) && IsRun(cfg, states, steps) && i <= |steps|
    ensures InTurn(states[i])
  {
    hide InTurn, Next, GoesOn, IsDecided, Begins;
    if i == 0 {
      StartsInTurn();
    } else {
      RunsAreInTurn(cfg, states, steps, i - 1);
      var step := steps[i - 1];
      var p := StepShape(cfg, states[i - 1], step, states[i]);
      if GoesOn(states[i - 1], states[i], p) {
        GoesOnKeeps(states[i - 1], states[i], p);
      } else if IsDecided(states[i - 1], states[i], p) {
        IsDecidedKeeps(states[i - 1], states[i], p);
      } else {
        BeginsKeeps(states[i - 1], states[i], p);
      }
    }
  }

  lemma StartsInTurn()
    ensures InTurn(INITIAL)
  {
  }

  // ----- What it means -------------------------------------------------------

  /** The decision an answer reports. */
  function DecisionOf(answer: Answer): Option<Decision> {
    match answer
    case Accepted(id, _, replay) => Some(if replay then Replayed(id) else Recorded(id))
    case Conflicted => Some(Refused)
    case _ => None
  }

  /** In every reachable state an acceptance or a conflict is reported from exactly
      one entry of the log: the submission's own, taken since it began. A
      submission still undecided, or answered that there is no wallet or that it
      can never succeed, has none. */
  lemma EachAnswerIsItsOwnDecision(cfg: Config, s: State, p: Pid)
    requires ValidConfig(cfg) && Reachable(cfg, s) && p in s.procs && CmdOf(s.procs[p]).Some?
    ensures CmdOf(s.procs[p]).value.attempt < |s.starts|
    ensures s.procs[p].Answered? && DecisionOf(s.procs[p].answer).Some? ==>
              var cmd := s.procs[p].cmd;
              exists i :: s.starts[cmd.attempt] <= i < |s.log|
                          && s.log[i] == LogEntry(cmd, DecisionOf(s.procs[p].answer).value)
                          && forall j :: 0 <= j < |s.log| && s.log[j].cmd.attempt == cmd.attempt ==> j == i
    ensures Undecided(s.procs[p]) ==> !DecidedIn(s.log, CmdOf(s.procs[p]).value.attempt)
  {
    hide Next, Tables, AwakeOn, ProcOk, Exclusive, BookOf, History, Backed;
    ReachableIsSafe(cfg, s);
    var states, steps :| IsRun(cfg, states, steps) && states[|steps|] == s;
    RunsAreInTurn(cfg, states, steps, |steps|);
    assert AnswerLogged(s.log, s.procs[p]) && ProcInTurn(s.log, s.starts, s.procs[p]);
    if s.procs[p].Answered? && DecisionOf(s.procs[p].answer).Some? {
      var e := LogEntry(s.procs[p].cmd, DecisionOf(s.procs[p].answer).value);
      assert e in s.log;
      var i :| 0 <= i < |s.log| && s.log[i] == e;
    }
  }

  /** No submission is decided twice, and no decision is anybody else's: the log's
      entries belong to different submissions, each made after its own began. */
  lemma NobodyIsDecidedTwice(cfg: Config, s: State, i: nat, j: nat)
    requires ValidConfig(cfg) && Reachable(cfg, s) && i < j < |s.log|
    ensures s.log[i].cmd.attempt != s.log[j].cmd.attempt
    ensures s.log[i].cmd.attempt < |s.starts| && s.starts[s.log[i].cmd.attempt] <= i
  {
    hide Next;
    var states, steps :| IsRun(cfg, states, steps) && states[|steps|] == s;
    RunsAreInTurn(cfg, states, steps, |steps|);
  }
}
