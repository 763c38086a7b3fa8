/**
 Any number of uncoordinated publishers over one outbox: claims that expire by
 the clock, batches accepted in part, sends accepted and reported as failed, late
 acceptances, and a crash between any two steps
 (internal/workers/publisher.go, internal/adapters/postgres/publisher.go).
 */
module OutboxProtocol {
  import opened Prelude
  import opened Outbox

  /** One publisher's turn: what it claimed, and what SendBatch told it. */
  datatype Turn = Turn(batch: set<EventId>, sent: set<EventId>, refused: set<EventId>)

  /** numbered is outbox_aggregate_sequence. inFlight is every message ever handed
      to a call: from then on it may reach the queue at any time, even after its
      publisher is gone. wire is what the queue accepted, in order. */
  datatype State = State(
    events: Events, numbered: map<Aggregate, nat>, clock: Time,
    turns: map<Publisher, Turn>, inFlight: set<EventId>, wire: seq<EventId>)

  const INITIAL := State(map[], map[], 0, map[], {}, [])

  function Last(s: State, a: Aggregate): nat {
    if a in s.numbered then s.numbered[a] else 0
  }

  datatype Step =
    | Tick(now: Time)
    | Append(e: EventId, aggregate: Aggregate, order: nat, next: Time)
    | Claim(p: Publisher, at: Time, hold: Time, chosen: set<EventId>, received: bool)
    | Transmit(p: Publisher, e: EventId)
    | Accept(e: EventId)
    | Report(p: Publisher, e: EventId, ok: bool)
    | Mark(p: Publisher, e: EventId)
    | Reschedule(p: Publisher, e: EventId, next: Time)
    | Release(p: Publisher)
    | EndTurn(p: Publisher)

  ghost predicate Next(s: State, step: Step, t: State) {
    match step
    case Tick(now) => now >= s.clock && t == s.(clock := now)
    // The trigger numbers an event after the last of its aggregate; a transaction
    // that rolls back numbers nothing.
    case Append(e, a, order, next) =>
      && e !in s.events
      && t == s.(events := s.events[e := Event(a, Last(s, a) + 1, order, next, 0, None, false)],
                 numbered := s.numbered[a := Last(s, a) + 1])
    // Judged at an instant sampled before the statement. Which of the claimable
    // rows are taken depends on the limit and on the rows others have locked. The
    // reply may be lost.
    case Claim(p, at, hold, chosen, received) =>
      && p !in s.turns && at <= s.clock && hold > 0
      && (forall e :: e in chosen ==> Claimable(s.events, e, at))
      && t == s.(events := Claimed(s.events, chosen, p, at, hold),
                 turns := if received then s.turns[p := Turn(chosen, {}, {})] else s.turns)
    case Transmit(p, e) =>
      && p in s.turns && e in s.turns[p].batch
      && t == s.(inFlight := s.inFlight + {e})
    case Accept(e) => e in s.inFlight && t == s.(wire := s.wire + [e])
    // A result says sent only for a message the queue accepted; it may say failed
    // of one that was.
    case Report(p, e, ok) =>
      && p in s.turns && e in s.turns[p].batch && e !in s.turns[p].sent && e !in s.turns[p].refused
      && (ok ==> e in s.wire)
      && t == s.(turns := s.turns[p := if ok then s.turns[p].(sent := s.turns[p].sent + {e})
                                       else s.turns[p].(refused := s.turns[p].refused + {e})])
    case Mark(p, e) => p in s.turns && e in s.turns[p].sent && t == s.(events := Marked(s.events, e))
    case Reschedule(p, e, next) =>
      p in s.turns && e in s.turns[p].refused && t == s.(events := Rescheduled(s.events, e, p, next))
    case Release(p) => t == s.(events := Released(s.events, p))
    // The end of a turn, or the end of the process: nothing is written either way.
    case EndTurn(p) => p in s.turns && t == s.(turns := s.turns - {p})
  }

  // ----- The invariant -------------------------------------------------------

  ghost predicate Numbered(s: State) {
    && (forall e :: e in s.events ==> 1 <= s.events[e].sequence <= Last(s, s.events[e].aggregate))
    && (forall e, f :: e in s.events && f in s.events ==>
          s.events[e].aggregate == s.events[f].aggregate && s.events[e].sequence == s.events[f].sequence ==> e == f)
    && (forall a, n :: 1 <= n <= Last(s, a) ==> HasEvent(s.events, a, n))
  }

  ghost predicate HasEvent(events: Events, a: Aggregate, n: nat) {
    exists e :: IsEvent(events, e, a, n)
  }

  predicate IsEvent(events: Events, e: EventId, a: Aggregate, n: nat) {
    e in events && events[e].aggregate == a && events[e].sequence == n
  }

  /** e was at the head of its aggregate when it was claimed, and so everything
      before it is published for good. */
  predicate Reached(events: Events, e: EventId) {
    e in events && HeadOfLine(events, e)
  }

  ghost predicate InOrder(s: State) {
    && (forall e :: e in s.inFlight ==> Reached(s.events, e))
    && (forall p, e :: p in s.turns && e in s.turns[p].batch ==> Reached(s.events, e))
    && (forall e :: e in s.wire ==> Reached(s.events, e))
    && (forall e :: e in s.events && (s.events[e].published || s.events[e].claim.Some?) ==> Reached(s.events, e))
  }

  ghost predicate Truthful(s: State) {
    && (forall p, e :: p in s.turns && e in s.turns[p].sent ==> e in s.wire)
    && (forall e :: e in s.events && s.events[e].published ==> e in s.wire && s.events[e].claim.None?)
  }

  /** The sequence numbers of one aggregate in the order they first appeared. */
  function Firsts(events: Events, wire: seq<EventId>, a: Aggregate): seq<nat> {
    if wire == [] then []
    else
      var before := Firsts(events, wire[..|wire| - 1], a);
      var e := wire[|wire| - 1];
      if e in events && events[e].aggregate == a && events[e].sequence !in before then before + [events[e].sequence]
      else before
  }

  /** 1..k with no gap. */
  predicate Counts(s: seq<nat>) {
    forall i :: 0 <= i < |s| ==> s[i] == i + 1
  }

  ghost predicate Inv(s: State) {
    Numbered(s) && InOrder(s) && Truthful(s) && forall a :: Counts(Firsts(s.events, s.wire, a))
  }

  // ----- Steps keep it -------------------------------------------------------

  /** Events keep their place and never become unpublished. */
  ghost predicate Evolves(before: Events, after: Events) {
    && (forall e :: e in before ==>
          && e in after && after[e].aggregate == before[e].aggregate && after[e].sequence == before[e].sequence
          && (before[e].published ==> after[e].published))
    && (forall e :: e in after && e !in before ==>
          forall x :: x in before && before[x].aggregate == after[e].aggregate ==> before[x].sequence < after[e].sequence)
  }

  lemma ReachedStays(before: Events, after: Events, e: EventId)
    requires Evolves(before, after) && Reached(before, e)
    ensures Reached(after, e)
  {
  }

  lemma {:induction false} FirstsStay(before: Events, after: Events, wire: seq<EventId>, a: Aggregate)
    requires Evolves(before, after) && forall e :: e in wire ==> e in before
    ensures Firsts(after, wire, a) == Firsts(before, wire, a)
  {
    if wire != [] {
      FirstsStay(before, after, wire[..|wire| - 1], a);
      assert wire[|wire| - 1] in wire;
    }
  }

  lemma {:induction false} FirstsHold(events: Events, wire: seq<EventId>, a: Aggregate, e: EventId)
    requires e in wire && e in events && events[e].aggregate == a
    ensures events[e].sequence in Firsts(events, wire, a)
  {
    var init, last := wire[..|wire| - 1], wire[|wire| - 1];
    if e != last {
      assert e in init;
      FirstsHold(events, init, a, e);
    }
  }

  /** A statement that leaves the wire alone. */
  lemma WritesKeep(s: State, t: State)
    requires Inv(s) && Evolves(s.events, t.events) && t.wire == s.wire && t.inFlight == s.inFlight
    requires forall p, e :: p in t.turns && e in t.turns[p].batch ==> Reached(t.events, e)
    requires forall e :: e in t.events && (t.events[e].published || t.events[e].claim.Some?) ==> Reached(t.events, e)
    requires Numbered(t) && Truthful(t)
    ensures Inv(t)
  {
    hide Numbered, Truthful, Reached, Evolves, Counts, Firsts;
    forall e | e in t.inFlight || e in t.wire
      ensures Reached(t.events, e)
    {
      ReachedStays(s.events, t.events, e);
    }
    forall a
      ensures Counts(Firsts(t.events, t.wire, a))
    {
      WireIsKnown(s);
      FirstsStay(s.events, t.events, s.wire, a);
    }
  }

  lemma WireIsKnown(s: State)
    requires InOrder(s)
    ensures forall e :: e in s.wire ==> e in s.events
  {
  }

  lemma AppendKeeps(s: State, t: State, e: EventId, a: Aggregate, order: nat, next: Time)
    requires Inv(s) && Next(s, Append(e, a, order, next), t)
    ensures Inv(t)
  {
    hide Counts, Firsts, Numbered, Evolves, Reached;
    AppendEvolves(s, t, e, a, order, next);
    AppendNumbers(s, t, e, a, order, next);
    forall x | Reached(s.events, x)
      ensures Reached(t.events, x)
    {
      ReachedStays(s.events, t.events, x);
    }
    WritesKeep(s, t);
  }

  lemma AppendEvolves(s: State, t: State, e: EventId, a: Aggregate, order: nat, next: Time)
    requires Numbered(s) && Next(s, Append(e, a, order, next), t)
    ensures Evolves(s.events, t.events)
  {
  }

  lemma AppendNumbers(s: State, t: State, e: EventId, a: Aggregate, order: nat, next: Time)
    requires Numbered(s) && Next(s, Append(e, a, order, next), t)
    ensures Numbered(t)
  {
    forall b, n | 1 <= n <= Last(t, b)
      ensures HasEvent(t.events, b, n)
    {
      if b == a && n == Last(t, a) {
        assert IsEvent(t.events, e, b, n);
      } else {
        assert HasEvent(s.events, b, n);
        var x: EventId :| IsEvent(s.events, x, b, n);
        assert IsEvent(t.events, x, b, n);
      }
    }
  }

  /** The table changed, and no event came or went or moved. */
  ghost predicate Rewrites(before: Events, after: Events) {
    && after.Keys == before.Keys
    && forall e :: e in before ==>
         && after[e].aggregate == before[e].aggregate && after[e].sequence == before[e].sequence
         && (before[e].published ==> after[e] == before[e])
  }

  lemma RewriteNumbers(s: State, t: State)
    requires Numbered(s) && Rewrites(s.events, t.events) && t.numbered == s.numbered
    ensures Numbered(t)
  {
    forall a, n | 1 <= n <= Last(t, a)
      ensures HasEvent(t.events, a, n)
    {
      assert HasEvent(s.events, a, n);
      var e: EventId :| IsEvent(s.events, e, a, n);
      assert IsEvent(t.events, e, a, n);
    }
  }

  lemma RewriteKeeps(s: State, t: State)
    requires Inv(s) && Rewrites(s.events, t.events) && t == s.(events := t.events, turns := t.turns)
    requires forall p, e :: p in t.turns && e in t.turns[p].batch ==> Reached(s.events, e)
    requires forall p, e :: p in t.turns && e in t.turns[p].sent ==> e in s.wire
    requires forall e :: e in t.events && t.events[e].published && !s.events[e].published ==> e in s.wire && t.events[e].claim.None?
    requires forall e :: e in t.events && t.events[e].claim.Some? ==> Reached(s.events, e)
    ensures Inv(t)
  {
    hide Numbered, Counts, Firsts, HeadOfLine;
    assert Evolves(s.events, t.events);
    RewriteNumbers(s, t);
    forall e | Reached(s.events, e)
      ensures Reached(t.events, e)
    {
      ReachedStays(s.events, t.events, e);
    }
    WritesKeep(s, t);
  }

  /** An accepted message is next in its aggregate, or a repeat. */
  lemma AcceptKeeps(s: State, t: State, e: EventId)
    requires Inv(s) && Next(s, Accept(e), t)
    ensures Inv(t)
  {
    hide Firsts;
    SameNumbers(s, t);
    forall a
      ensures Counts(Firsts(t.events, t.wire, a))
    {
      FirstsGrow(s, e, a);
    }
  }

  lemma FirstsGrow(s: State, e: EventId, a: Aggregate)
    requires Inv(s) && e in s.inFlight
    ensures Counts(Firsts(s.events, s.wire + [e], a))
  {
    var f := Firsts(s.events, s.wire, a);
    assert (s.wire + [e])[..|s.wire|] == s.wire;
    if s.events[e].aggregate == a {
      var n := s.events[e].sequence;
      assert n <= |f| + 1 by {
        if n > 1 {
          PredecessorWasSent(s, e);
          assert n - 1 in f;
        }
      }
      if n <= |f| {
        assert f[n - 1] == n;
      }
    }
  }

  lemma PredecessorWasSent(s: State, e: EventId)
    requires Inv(s) && e in s.inFlight && e in s.events && s.events[e].sequence > 1
    ensures s.events[e].sequence - 1 in Firsts(s.events, s.wire, s.events[e].aggregate)
  {
    hide Counts, Firsts;
    var a, n := s.events[e].aggregate, s.events[e].sequence;
    assert Reached(s.events, e);
    assert HasEvent(s.events, a, n - 1);
    var x: EventId :| IsEvent(s.events, x, a, n - 1);
    assert s.events[x].published;
    FirstsHold(s.events, s.wire, a, x);
  }

  lemma InitialHolds()
    ensures Inv(INITIAL)
  {
  }

  lemma StepKeeps(s: State, step: Step, t: State)
    requires Inv(s) && Next(s, step, t)
    ensures Inv(t)
  {
    hide Firsts, Counts, HeadOfLine;
    match step
    case Tick(_) => SameNumbers(s, t);
    case Append(e, a, order, next) => AppendKeeps(s, t, e, a, order, next);
    case Accept(e) => AcceptKeeps(s, t, e);
    case _ => RewriteStep(s, step, t);
  }

  lemma RewriteStep(s: State, step: Step, t: State)
    requires Inv(s) && Next(s, step, t)
    requires !step.Tick? && !step.Append? && !step.Accept?
    ensures Inv(t)
  {
    hide Firsts, Counts, HeadOfLine, Numbered;
    if step.Transmit? {
      assert t == s.(inFlight := t.inFlight);
      assert Numbered(t) by { SameNumbers(s, t); }
    } else {
      RewriteKeeps(s, t);
    }
  }

  lemma SameNumbers(s: State, t: State)
    requires Numbered(s) && t.events == s.events && t.numbered == s.numbered
    ensures Numbered(t)
  {
    assert forall a :: Last(t, a) == Last(s, a);
  }

  // ----- What it means -------------------------------------------------------

  ghost predicate IsRun(states: seq<State>, steps: seq<Step>) {
    && |states| == |steps| + 1 && states[0] == INITIAL
    && forall i {:trigger steps[i]} :: 0 <= i < |steps| ==> Next(states[i], steps[i], states[i + 1])
  }

  lemma {:induction false} RunsAreSafe(states: seq<State>, steps: seq<Step>, i: nat)
    requires IsRun(states, steps) && i <= |steps|
    ensures Inv(states[i])
  {
    hide Inv, Next;
    if i == 0 {
      InitialHolds();
    } else {
      RunsAreSafe(states, steps, i - 1);
      var step := steps[i - 1];
      StepKeeps(states[i - 1], step, states[i]);
    }
  }

  /** At every point of every run, an aggregate's accepted messages with repeats
      dropped are its sequence 1..k with no gap, and every event marked published
      is among them. */
  lemma AggregatesArriveInOrder(states: seq<State>, steps: seq<Step>, i: nat, a: Aggregate, e: EventId)
    requires IsRun(states, steps) && i <= |steps|
    ensures Counts(Firsts(states[i].events, states[i].wire, a))
    ensures e in states[i].events && states[i].events[e].published ==>
              && e in states[i].wire
              && states[i].events[e].sequence in Firsts(states[i].events, states[i].wire, states[i].events[e].aggregate)
  {
    hide Firsts, Counts, Numbered, InOrder;
    RunsAreSafe(states, steps, i);
    if e in states[i].events && states[i].events[e].published {
      FirstsHold(states[i].events, states[i].wire, states[i].events[e].aggregate, e);
    }
  }

  /** Only the head of an aggregate is ever claimed, and no two of its events are. */
  lemma OneClaimPerAggregate(states: seq<State>, steps: seq<Step>, i: nat, e: EventId, f: EventId)
    requires IsRun(states, steps) && i <= |steps|
    requires e in states[i].events && states[i].events[e].claim.Some?
    ensures !states[i].events[e].published && HeadOfLine(states[i].events, e)
    ensures f in states[i].events && states[i].events[f].claim.Some? && f != e ==>
              states[i].events[f].aggregate != states[i].events[e].aggregate
  {
    hide Firsts, Counts;
    RunsAreSafe(states, steps, i);
  }

  /** A claim that has not expired is cleared or replaced only by its holder, or
      by the event being published. */
  lemma ClaimsAreRespected(s: State, step: Step, t: State, e: EventId)
    requires Inv(s) && Next(s, step, t)
    requires e in s.events && s.events[e].claim.Some? && s.events[e].claim.value.expires > s.clock
    ensures e in t.events
    ensures t.events[e].claim != s.events[e].claim ==>
              || t.events[e].published
              || (step.Reschedule? && step.p == s.events[e].claim.value.holder)
              || (step.Release? && step.p == s.events[e].claim.value.holder)
  {
  }

  /** Step k puts e off until `next`: it is unpublished, and this publisher's or
      nobody's. */
  predicate PutsOff(s: State, step: Step, e: EventId, next: Time) {
    && step.Reschedule? && step.e == e && step.next == next && e in s.events && !s.events[e].published
    && (s.events[e].claim.None? || s.events[e].claim.value.holder == step.p)
  }

  lemma {:induction false} StaysPutOff(states: seq<State>, steps: seq<Step>, i: nat, j: nat, e: EventId, next: Time)
    requires IsRun(states, steps) && i < j <= |steps| && PutsOff(states[i], steps[i], e, next)
    requires forall k :: i < k < j ==> !(steps[k].Reschedule? && steps[k].e == e)
    ensures e in states[j].events && states[j].events[e].nextAttempt == next
  {
    var step := steps[j - 1];
    assert Next(states[j - 1], step, states[j]);
    if i < j - 1 {
      StaysPutOff(states, steps, i, j - 1, e, next);
    }
  }

  /** An event put off is not claimable before its time, by anybody, until it is
      put off again. */
  lemma PutOffIsNotClaimable(states: seq<State>, steps: seq<Step>, i: nat, j: nat, e: EventId, next: Time, at: Time)
    requires IsRun(states, steps) && i < j <= |steps| && PutsOff(states[i], steps[i], e, next)
    requires forall k :: i < k < j ==> !(steps[k].Reschedule? && steps[k].e == e)
    requires at < next
    ensures !Claimable(states[j].events, e, at)
  {
    StaysPutOff(states, steps, i, j, e, next);
  }

  /** When an event's claim and schedule are both past. */
  function ClaimableFrom(event: Event): Time {
    if event.claim.Some? then Max(event.nextAttempt, event.claim.value.expires) else event.nextAttempt
  }

  /** No aggregate is stuck: while any of its events is unpublished, its head is
      claimable from the later of its schedule and its claim's expiry on, and not
      before its schedule. */
  lemma TheHeadBecomesClaimable(s: State, e: EventId)
    requires Inv(s) && e in s.events && !s.events[e].published
    ensures exists h ::
              && h in s.events && s.events[h].aggregate == s.events[e].aggregate
              && forall at :: Claimable(s.events, h, at) <==> at >= ClaimableFrom(s.events[h])
  {
    hide Firsts, Counts, InOrder, Truthful;
    var h := Head(s.events, e);
    assert forall at :: Claimable(s.events, h, at) <==> at >= ClaimableFrom(s.events[h]);
  }

  lemma {:induction false} Head(events: Events, e: EventId) returns (h: EventId)
    requires e in events && !events[e].published
    ensures h in events && !events[h].published && events[h].aggregate == events[e].aggregate && HeadOfLine(events, h)
    decreases events[e].sequence
  {
    if HeadOfLine(events, e) {
      h := e;
    } else {
      var x :| x in events && events[x].aggregate == events[e].aggregate && events[x].sequence < events[e].sequence
               && !events[x].published;
      h := Head(events, x);
    }
  }
}
