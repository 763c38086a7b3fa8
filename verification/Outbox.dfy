/**
 The outbox table and the four statements a publisher issues against it
 (internal/adapters/postgres/publisher.go).
 */
module Outbox {
  import opened Prelude

  type EventId = nat
  type Aggregate = nat
  type Publisher = nat

  datatype Claim = Taken(holder: Publisher, expires: Time)

  /** order is the table's own sequence, which breaks ties between schedules. */
  datatype Event = Event(
    aggregate: Aggregate, sequence: nat, order: nat, nextAttempt: Time, attempts: nat,
    claim: Option<Claim>, published: bool)

  type Events = map<EventId, Event>

  // ----- claimOutbox ---------------------------------------------------------

  /** Nothing earlier of the same aggregate is still to be published. */
  predicate HeadOfLine(events: Events, e: EventId)
    requires e in events
  {
    forall x :: x in events && events[x].aggregate == events[e].aggregate && events[x].sequence < events[e].sequence ==>
      events[x].published
  }

  predicate Free(event: Event, at: Time) {
    event.claim.None? || event.claim.value.expires <= at
  }

  /** The three predicates of the claim. */
  predicate Claimable(events: Events, e: EventId, at: Time) {
    && e in events && !events[e].published && events[e].nextAttempt <= at
    && Free(events[e], at)
    && HeadOfLine(events, e)
  }

  function Claimed(events: Events, chosen: set<EventId>, holder: Publisher, at: Time, hold: Time): Events {
    map e | e in events ::
      if e in chosen then events[e].(claim := Some(Taken(holder, at + hold)), attempts := events[e].attempts + 1) else events[e]
  }

  /** ORDER BY next_attempt_at, sequence. */
  predicate Sooner(a: Event, b: Event) {
    a.nextAttempt < b.nextAttempt || (a.nextAttempt == b.nextAttempt && a.order <= b.order)
  }

  // ----- markPublished, rescheduleEvent, releaseClaims -----------------------

  function Marked(events: Events, e: EventId): Events {
    if e in events && !events[e].published then events[e := events[e].(published := true, claim := None)] else events
  }

  /** Only the holder of the claim, or anybody when nobody holds one. */
  predicate MayReschedule(events: Events, e: EventId, holder: Publisher) {
    e in events && !events[e].published && (events[e].claim.None? || events[e].claim.value.holder == holder)
  }

  function Rescheduled(events: Events, e: EventId, holder: Publisher, next: Time): Events {
    if MayReschedule(events, e, holder) then events[e := events[e].(nextAttempt := next, claim := None)] else events
  }

  predicate HeldBy(event: Event, holder: Publisher) {
    !event.published && event.claim.Some? && event.claim.value.holder == holder
  }

  function Released(events: Events, holder: Publisher): Events {
    map e | e in events :: if HeldBy(events[e], holder) then events[e].(claim := None) else events[e]
  }

  /** The table, updated in place. */
  class Table {
    var events: Events

    constructor (rows: Events)
      ensures events == rows
    {
      events := rows;
    }

    /** Claim: the soonest of the claimable rows nobody else is claiming in this
        instant, at most limit of them, in one statement. */
    method Claim(holder: Publisher, limit: nat, at: Time, hold: Time, locked: set<EventId>) returns (claimed: seq<EventId>)
      requires limit > 0 && hold > 0
      modifies this
      ensures forall i, j :: 0 <= i < j < |claimed| ==> claimed[i] != claimed[j]
      ensures |claimed| <= limit
      ensures forall e :: e in claimed ==> Claimable(old(events), e, at) && e !in locked
      ensures forall e, x :: e in claimed && x !in claimed && x !in locked && Claimable(old(events), x, at) ==>
                && e in old(events)
                && (old(events)[e].nextAttempt < old(events)[x].nextAttempt
                    || (old(events)[e].nextAttempt == old(events)[x].nextAttempt && old(events)[e].order <= old(events)[x].order))
      ensures |claimed| < limit ==> forall x :: x !in locked && Claimable(old(events), x, at) ==> x in claimed
      ensures events == Claimed(old(events), (set e | e in claimed), holder, at, hold)
      ensures events.Keys == old(events).Keys
      ensures forall e :: e in claimed ==>
                && e in old(events)
                && events[e] == old(events)[e].(claim := Some(Taken(holder, at + hold)), attempts := old(events)[e].attempts + 1)
      ensures forall e :: e in events && e !in claimed ==> events[e] == old(events)[e]
    {
      var left := set e | e in events && e !in locked && Claimable(events, e, at);
      claimed := [];
      while left != {} && |claimed| < limit
        invariant events == old(events)
        invariant left == set e | e in events && e !in locked && Claimable(events, e, at) && e !in claimed
        invariant |claimed| <= limit
        invariant forall i, j :: 0 <= i < j < |claimed| ==> claimed[i] != claimed[j]
        invariant forall e :: e in claimed ==> Claimable(events, e, at) && e !in locked
        invariant forall e, x :: e in claimed && x in left ==> Sooner(events[e], events[x])
        decreases left
      {
        var e := Soonest(left);
        claimed := claimed + [e];
        left := left - {e};
      }
      assert forall x :: x !in locked && Claimable(events, x, at) && x !in claimed ==> x in left;
      events := Claimed(events, (set e | e in claimed), holder, at, hold);
    }

    method Soonest(among: set<EventId>) returns (e: EventId)
      requires among != {} && among <= events.Keys
      ensures e in among && forall x :: x in among ==> Sooner(events[e], events[x])
    {
      e :| e in among;
      var rest := among - {e};
      while rest != {}
        invariant rest <= among && e in among
        invariant forall x :: x in among && x !in rest ==> Sooner(events[e], events[x])
      {
        var x :| x in rest;
        if Sooner(events[x], events[e]) {
          e := x;
        }
        rest := rest - {x};
      }
    }

    /** MarkPublished: once, and the claim goes with it, whoever held it. */
    method MarkPublished(e: EventId) returns (marked: bool)
      modifies this
      ensures marked <==> e in old(events) && !old(events)[e].published
      ensures events == if marked then old(events)[e := old(events)[e].(published := true, claim := None)] else old(events)
      ensures events == Marked(old(events), e)
    {
      marked := e in events && !events[e].published;
      if marked {
        events := events[e := events[e].(published := true, claim := None)];
      }
    }

    /** Reschedule: an unpublished event that is this publisher's, or nobody's, is
        put back for `next` with no claim on it; any other is left as it is. */
    method Reschedule(holder: Publisher, e: EventId, next: Time) returns (moved: bool)
      modifies this
      ensures moved <==> e in old(events) && !old(events)[e].published
                         && (old(events)[e].claim.None? || old(events)[e].claim.value.holder == holder)
      ensures moved ==> e in events && events[e].nextAttempt == next && events[e].claim == None
      ensures events == if moved then old(events)[e := old(events)[e].(nextAttempt := next, claim := None)] else old(events)
      ensures events == Rescheduled(old(events), e, holder, next)
    {
      moved := e in events && !events[e].published && (events[e].claim.None? || events[e].claim.value.holder == holder);
      if moved {
        events := events[e := events[e].(nextAttempt := next, claim := None)];
      }
    }

    method ReleaseClaims(holder: Publisher) returns (released: nat)
      modifies this
      ensures events == Released(old(events), holder)
      ensures events.Keys == old(events).Keys
      ensures forall e :: e in events ==>
                var was := old(events)[e];
                events[e] == if !was.published && was.claim.Some? && was.claim.value.holder == holder
                             then was.(claim := None) else was
      ensures released == |set e | e in old(events) && !old(events)[e].published && old(events)[e].claim.Some?
                                  && old(events)[e].claim.value.holder == holder|
    {
      var mine := set e | e in events && HeldBy(events[e], holder);
      assert mine == set e | e in events && !events[e].published && events[e].claim.Some? && events[e].claim.value.holder == holder;
      events := map e | e in events :: if e in mine then events[e].(claim := None) else events[e];
      released := |mine|;
    }
  }
}
