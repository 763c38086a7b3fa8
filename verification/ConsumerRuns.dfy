/**
 Any number of receivers over one held set, and the sweep that ends them
 (internal/workers/consumer.go). A receiver decides one message at a time, the
 deciding and the leaving of the held set together; Stop drains the set once and
 releases what it drained.
 */
module ConsumerRuns {
  import opened Prelude
  import opened Consumer

  type Receiver = nat

  /** What a receiver is doing with the rest of its batch. */
  datatype Mode = Handling | Hiding(hidden: Time) | Leaving | GivenUp

  datatype Work = Work(rest: seq<Handle>, mode: Mode)

  /** live is the receivers that have not returned; fates are the decisions made; swept what the drain took out, in order;
      released the sweep's attempts so far. */
  datatype State = State(
    live: set<Receiver>, held: set<Handle>, taken: set<Handle>, work: map<Receiver, Work>, fates: map<Handle, Fate>,
    swept: Option<seq<Handle>>, released: seq<Handle>)

  function Initial(receivers: set<Receiver>): State {
    State(receivers, {}, {}, map[], map[], None, [])
  }

  datatype Step =
    | Take(r: Receiver, messages: seq<Handle>)
    | Settle(r: Receiver)
    | Defer(r: Receiver, hidden: Time)
    | Poison(r: Receiver)
    | GiveUp(r: Receiver)
    | Behind(r: Receiver)
    | EndBatch(r: Receiver)
    | Return(r: Receiver)
    | Drain(handles: seq<Handle>)
    | Release

  predicate DistinctHandles(s: seq<Handle>) {
    forall i, j :: 0 <= i < j < |s| ==> s[i] != s[j]
  }

  predicate Busy(s: State, r: Receiver) {
    r in s.work && s.work[r].rest != []
  }

  /** The first message of what is left is decided about, and is no longer held. */
  function Decide(s: State, r: Receiver, fate: Fate, mode: Mode): State
    requires Busy(s, r)
  {
    var h := s.work[r].rest[0];
    s.(held := s.held - {h}, fates := s.fates[h := fate], work := s.work[r := Work(s.work[r].rest[1..], mode)])
  }

  ghost predicate Next(s: State, step: Step, t: State) {
    match step
    case Take(r, messages) =>
      && r in s.live && r !in s.work && DistinctHandles(messages) && (forall h :: h in messages ==> h !in s.taken)
      && t == s.(held := s.held + (set h | h in messages), taken := s.taken + (set h | h in messages),
                 work := s.work[r := Work(messages, Handling)])
    case Settle(r) => Busy(s, r) && s.work[r].mode == Handling && t == Decide(s, r, Deleted, Handling)
    case Defer(r, hidden) => Busy(s, r) && s.work[r].mode == Handling && t == Decide(s, r, Hidden(hidden), Hiding(hidden))
    case Poison(r) => Busy(s, r) && s.work[r].mode == Handling && t == Decide(s, r, Left, Leaving)
    // Cancelled before or during this message: it and the rest stay held.
    case GiveUp(r) => Busy(s, r) && s.work[r].mode == Handling && t == s.(work := s.work[r := s.work[r].(mode := GivenUp)])
    case Behind(r) =>
      && Busy(s, r)
      && (match s.work[r].mode
          case Hiding(hidden) => t == Decide(s, r, Hidden(hidden), Hiding(hidden))
          case Leaving => t == Decide(s, r, Left, Leaving)
          case _ => false)
    case Return(r) => r in s.live && r !in s.work && t == s.(live := s.live - {r})
    case EndBatch(r) =>
      r in s.work && (s.work[r].rest == [] || s.work[r].mode == GivenUp) && t == s.(work := s.work - {r})
    case Drain(handles) =>
      && s.swept.None? && DistinctHandles(handles) && (set h | h in handles) == s.held
      && t == s.(held := {}, swept := Some(handles))
    case Release =>
      && s.swept.Some? && |s.released| < |s.swept.value|
      && t == s.(released := s.released + [s.swept.value[|s.released|]])
  }

  // ----- Before the sweep ----------------------------------------------------

  ghost predicate WorkIsHeld(s: State) {
    forall r :: r in s.work ==> DistinctHandles(s.work[r].rest) && forall h :: h in s.work[r].rest ==> h in s.held
  }

  ghost predicate WorkIsApart(s: State) {
    forall r, q, h :: r in s.work && q in s.work && r != q && h in s.work[r].rest ==> h !in s.work[q].rest
  }

  /** Until the sweep, every delivery taken is held or decided, never both. */
  ghost predicate Accounted(s: State) {
    s.taken == s.held + s.fates.Keys && s.held !! s.fates.Keys
  }

  ghost predicate Inv(s: State) {
    if s.swept.None? then Accounted(s) && WorkIsHeld(s) && WorkIsApart(s) && s.released == []
    else DistinctHandles(s.swept.value) && s.released <= s.swept.value
  }

  /** Only a receiver that has not returned has work. */
  predicate Attended(s: State) {
    s.work.Keys <= s.live
  }

  lemma DecideKeeps(s: State, r: Receiver, fate: Fate, mode: Mode)
    requires Inv(s) && s.swept.None? && Busy(s, r)
    ensures Inv(Decide(s, r, fate, mode))
  {
    var t := Decide(s, r, fate, mode);
    var h, rest := s.work[r].rest[0], s.work[r].rest[1..];
    assert forall x :: x in rest ==> x in s.work[r].rest && x != h;
    forall q | q in t.work
      ensures DistinctHandles(t.work[q].rest) && forall x :: x in t.work[q].rest ==> x in t.held
    {
      assert q != r ==> h !in s.work[q].rest;
    }
    forall q, p, x | q in t.work && p in t.work && q != p && x in t.work[q].rest
      ensures x !in t.work[p].rest
    {
      assert x in s.work[q].rest && x !in s.work[p].rest;
    }
  }

  lemma StepKeeps(s: State, step: Step, t: State)
    requires Inv(s) && Attended(s) && Next(s, step, t)
    ensures Inv(t) && Attended(t)
  {
    match step
    case Settle(r) => if s.swept.None? { DecideKeeps(s, r, Deleted, Handling); }
    case Defer(r, hidden) => if s.swept.None? { DecideKeeps(s, r, Hidden(hidden), Hiding(hidden)); }
    case Poison(r) => if s.swept.None? { DecideKeeps(s, r, Left, Leaving); }
    case Behind(r) =>
      if s.swept.None? {
        match s.work[r].mode
        case Hiding(hidden) => DecideKeeps(s, r, Hidden(hidden), Hiding(hidden));
        case Leaving => DecideKeeps(s, r, Left, Leaving);
      }
    case _ =>
  }

  ghost predicate IsRun(states: seq<State>, steps: seq<Step>) {
    && |states| == |steps| + 1 && states[0] == Initial(states[0].live)
    && forall i {:trigger steps[i]} :: 0 <= i < |steps| ==> Next(states[i], steps[i], states[i + 1])
  }

  lemma {:induction false} RunsAreSafe(states: seq<State>, steps: seq<Step>, i: nat)
    requires IsRun(states, steps) && i <= |steps|
    ensures Inv(states[i]) && Attended(states[i])
  {
    hide Next;
    if i > 0 {
      RunsAreSafe(states, steps, i - 1);
      var step := steps[i - 1];
      StepKeeps(states[i - 1], step, states[i]);
    }
  }

  // ----- The sweep -----------------------------------------------------------

  /** After the drain, with no receiver left, nothing but releases happens. */
  lemma {:induction false} SweepOnly(states: seq<State>, steps: seq<Step>, d: nat, i: nat)
    requires IsRun(states, steps) && d < i <= |steps| && steps[d].Drain? && states[d].live == {}
    ensures states[i] == states[d + 1].(released := states[i].released)
  {
    RunsAreSafe(states, steps, d);
    if i > d + 1 {
      SweepOnly(states, steps, d, i - 1);
      var step := steps[i - 1];
      assert Next(states[i - 1], step, states[i]);
    } else {
      var step := steps[d];
      assert Next(states[d], step, states[d + 1]);
    }
  }

  predicate Listed(s: seq<Handle>, h: Handle) { h in s }

  /** Once every receiver has returned, each delivery ever taken has met exactly
      one of three fates or is held; and the sweep attempts to release exactly the
      held ones, each once. */
  lemma StopGivesBackExactlyWhatIsHeld(states: seq<State>, steps: seq<Step>, d: nat, i: nat)
    requires IsRun(states, steps) && d < i <= |steps| && steps[d].Drain? && states[d].live == {}
    ensures forall h :: h in states[i].taken <==> (h in states[i].fates || h in states[d].held)
    ensures forall h :: h in states[i].fates ==> h !in states[d].held
    ensures DistinctHandles(states[i].released) && forall h :: Listed(states[i].released, h) ==> h in states[d].held
    ensures states[i].swept.Some?
    ensures |states[i].released| == |states[i].swept.value| ==> forall h :: h in states[d].held ==> Listed(states[i].released, h)
  {
    RunsAreSafe(states, steps, d);
    RunsAreSafe(states, steps, i);
    SweepOnly(states, steps, d, i);
    var step := steps[d];
    assert Next(states[d], step, states[d + 1]);
    var swept := states[i].swept.value;
    assert states[i].released <= swept;
    assert forall h :: h in swept <==> h in states[d].held by { MembersOf(swept, states[d].held); }
    assert forall h :: Listed(states[i].released, h) ==> h in swept;
    if |states[i].released| == |swept| {
      assert states[i].released == swept;
    }
  }

  lemma MembersOf(s: seq<Handle>, held: set<Handle>)
    requires (set h | h in s) == held
    ensures forall h :: h in s <==> h in held
  {
  }
}
