/** A publisher's turn and its loop (internal/workers/publisher.go). */
module Publisher {
  import opened Prelude
  import opened Outbox
  import opened Send
  import Backoff

  datatype ClaimedEvent = ClaimedEvent(id: EventId, attempts: nat)

  /** What the queue said of one claimed event: nothing is sent unless the whole
      answer lines up with what was asked. */
  predicate WasSent(batch: seq<ClaimedEvent>, answer: Result<seq<SendResult>, SendError>, i: nat) {
    answer.Ok? && |answer.value| == |batch| && i < |batch| && Sent(answer.value[i])
  }

  predicate Distinct(batch: seq<ClaimedEvent>) {
    forall i, j :: 0 <= i < j < |batch| ==> batch[i].id != batch[j].id
  }

  /** How many of the first n the queue accepted. */
  function SentAmong(batch: seq<ClaimedEvent>, answer: Result<seq<SendResult>, SendError>, n: nat): nat
    requires n <= |batch|
  {
    if n == 0 then 0 else SentAmong(batch, answer, n - 1) + if WasSent(batch, answer, n - 1) then 1 else 0
  }

  /** The end of a turn: for every claimed event one statement is issued, a mark or
      a reschedule; only what the queue accepted is marked; a statement that does
      not take effect leaves its event, claim and all, as it was; and nothing
      outside the batch is touched. */
  method Conclude(
    table: Table, holder: Publisher, policy: Backoff.Policy, batch: seq<ClaimedEvent>,
    answer: Result<seq<SendResult>, SendError>, done: Time, lands: nat -> bool) returns (published: nat)
    requires Backoff.Valid(policy) && Distinct(batch)
    modifies table
    ensures table.events.Keys == old(table.events).Keys
    ensures forall i :: 0 <= i < |batch| && batch[i].id in table.events ==>
              var was := old(table.events)[batch[i].id];
              table.events[batch[i].id]
              == if !lands(i) || was.published then was
                 else if WasSent(batch, answer, i) then was.(published := true, claim := None)
                 else if was.claim.None? || was.claim.value.holder == holder then
                   was.(nextAttempt := done + Backoff.After(policy, batch[i].attempts), claim := None)
                 else was
    ensures forall e :: e in table.events && (forall i :: 0 <= i < |batch| ==> batch[i].id != e) ==>
              table.events[e] == old(table.events)[e]
    ensures published == SentAmong(batch, answer, |batch|)
  {
    hide Backoff.After, Backoff.Valid;
    published := 0;
    var aligned := answer.Ok? && |answer.value| == |batch|;
    for k := 0 to |batch|
      invariant table.events.Keys == old(table.events).Keys
      invariant forall i :: 0 <= i < k && batch[i].id in table.events ==>
                  var was := old(table.events)[batch[i].id];
                  table.events[batch[i].id]
                  == if !lands(i) || was.published then was
                     else if WasSent(batch, answer, i) then was.(published := true, claim := None)
                     else if was.claim.None? || was.claim.value.holder == holder then
                       was.(nextAttempt := done + Backoff.After(policy, batch[i].attempts), claim := None)
                     else was
      invariant forall e :: e in table.events && (forall i :: 0 <= i < k ==> batch[i].id != e) ==>
                  table.events[e] == old(table.events)[e]
      invariant published == SentAmong(batch, answer, k)
    {
      var event := batch[k];
      if aligned && Sent(answer.value[k]) {
        published := published + 1;
        if lands(k) {
          var _ := table.MarkPublished(event.id);
        }
      } else if lands(k) {
        var _ := table.Reschedule(holder, event.id, done + Backoff.After(policy, event.attempts));
      }
    }
  }

  /** A whole turn: claim, send, conclude. What becomes published is exactly what
      was claimed here, accepted by the queue and marked; every claim is given up
      whose statement took effect, and any other stands until its hold runs out. */
  method Turn(
    table: Table, holder: Publisher, limit: nat, at: Time, hold: Time, locked: set<EventId>, policy: Backoff.Policy,
    bodyOf: EventId -> Outbound, resolved: bool, service: nat -> Reply, done: Time, lands: nat -> bool)
    returns (claimed: nat, published: nat, ghost batch: seq<EventId>, ghost calls: seq<seq<Plan>>)
    requires Backoff.Valid(policy) && limit > 0 && hold > 0
    modifies table
    ensures claimed == |batch| <= limit && forall i, j :: 0 <= i < j < |batch| ==> batch[i] != batch[j]
    ensures table.events.Keys == old(table.events).Keys
    ensures forall e :: e in batch ==> Claimable(old(table.events), e, at)
    ensures forall i :: 0 <= i < |batch| ==>
              && batch[i] in table.events
              && (table.events[batch[i]].published <==>
                    lands(i) && resolved && Acceptable(bodyOf(batch[i])) && Delivered(calls, service, i, |calls|))
              && table.events[batch[i]].claim == (if lands(i) then None else Some(Taken(holder, at + hold)))
              && batch[i] in old(table.events) && table.events[batch[i]].attempts == old(table.events)[batch[i]].attempts + 1
              && (lands(i) && !table.events[batch[i]].published ==>
                    table.events[batch[i]].nextAttempt
                    == done + Backoff.After(policy, old(table.events)[batch[i]].attempts + 1))
    ensures forall e :: e in table.events && e !in batch ==> table.events[e] == old(table.events)[e]
  {
    hide Claimable, Sooner, Delivered, Weight, Packed, AllFit, NoneEmpty, Concat, PlansOf, Backoff.After, Backoff.Valid, SentAmong;
    calls := [];
    var ids := table.Claim(holder, limit, at, hold, locked);
    batch := ids;
    ClaimableIsThere(old(table.events), ids, at);
    if |ids| == 0 {
      return 0, 0, batch, calls;
    }
    var taken := seq(|ids|, i requires 0 <= i < |ids| && ids[i] in table.events reads table => ClaimedEvent(ids[i], table.events[ids[i]].attempts));
    var messages := seq(|ids|, i requires 0 <= i < |ids| => bodyOf(ids[i]));
    var answer;
    answer, calls := SendBatch(resolved, messages, service);
    published := Conclude(table, holder, policy, taken, answer, done, lands);
    claimed := |ids|;
    forall i | 0 <= i < |batch|
      ensures table.events[batch[i]].published <==> lands(i) && WasSent(taken, answer, i)
      ensures table.events[batch[i]].claim == if lands(i) then None else Some(Taken(holder, at + hold))
    {
      assert taken[i].id == batch[i];
    }
  }

  lemma ClaimableIsThere(events: Events, ids: seq<EventId>, at: Time)
    requires forall e :: e in ids ==> Claimable(events, e, at)
    ensures forall e :: e in ids ==> e in events && !events[e].published
  {
  }

  // ----- run -----------------------------------------------------------------

  /** What one turn came to. */
  datatype TurnOutcome = TurnOutcome(failed: bool, claimed: nat, published: nat)

  predicate Fruitless(o: TurnOutcome) {
    o.failed || (o.claimed > 0 && o.published == 0)
  }

  /** Consecutive fruitless turns up to the n-th. */
  function Streak(turns: seq<TurnOutcome>, n: nat): nat
    requires n <= |turns|
  {
    if n == 0 || !Fruitless(turns[n - 1]) then 0 else Streak(turns, n - 1) + 1
  }

  /** The loop: how long it waits after each turn, if it waits at all. */
  method Run(turns: seq<TurnOutcome>, batch: nat, policy: Backoff.Policy, interval: Time) returns (waits: seq<Option<Time>>)
    requires Backoff.Valid(policy) && batch > 0
    ensures |waits| == |turns|
    ensures forall i :: 0 <= i < |turns| ==>
              var fruitless := turns[i].failed || (turns[i].claimed > 0 && turns[i].published == 0);
              && (waits[i].None? <==> !fruitless && turns[i].claimed >= batch)
              && (fruitless ==> waits[i] == Some(Backoff.After(policy, Streak(turns, i + 1))))
              && (waits[i].Some? && !fruitless ==> waits[i] == Some(interval))
  {
    hide Backoff.After;
    waits := [];
    var failures := 0;
    for k := 0 to |turns|
      invariant |waits| == k && failures == Streak(turns, k)
      invariant forall i :: 0 <= i < k ==>
                  && (waits[i].None? <==> !Fruitless(turns[i]) && turns[i].claimed >= batch)
                  && (Fruitless(turns[i]) ==> waits[i] == Some(Backoff.After(policy, Streak(turns, i + 1))))
                  && (waits[i].Some? && !Fruitless(turns[i]) ==> waits[i] == Some(interval))
    {
      if Fruitless(turns[k]) {
        failures := failures + 1;
        waits := waits + [Some(Backoff.After(policy, failures))];
      } else if turns[k].claimed >= batch {
        failures := 0;
        waits := waits + [None];
      } else {
        failures := 0;
        waits := waits + [Some(interval)];
      }
    }
  }

  function Unwaited(waits: seq<Option<Time>>): nat {
    if waits == [] then 0 else Unwaited(waits[..|waits| - 1]) + if waits[|waits| - 1].None? then 1 else 0
  }

  function Accepted(turns: seq<TurnOutcome>): nat {
    if turns == [] then 0 else Accepted(turns[..|turns| - 1]) + turns[|turns| - 1].published
  }

  /** The loop cannot spin: the turns it goes straight round after number at most
      the events the queue accepted. */
  lemma {:induction false} TheLoopCannotSpin(turns: seq<TurnOutcome>, waits: seq<Option<Time>>, batch: nat)
    requires |waits| == |turns| && batch > 0
    requires forall i :: 0 <= i < |turns| ==> waits[i].None? ==> !Fruitless(turns[i]) && turns[i].claimed >= batch
    ensures Unwaited(waits) <= Accepted(turns)
  {
    if turns != [] {
      TheLoopCannotSpin(turns[..|turns| - 1], waits[..|waits| - 1], batch);
    }
  }

  lemma {:induction false} StreakGrows(turns: seq<TurnOutcome>, i: nat, j: nat)
    requires i <= j <= |turns| && forall k :: i <= k < j ==> Fruitless(turns[k])
    ensures Streak(turns, j) == Streak(turns, i) + (j - i)
  {
    if i < j {
      StreakGrows(turns, i, j - 1);
    }
  }

  /** Over fruitless turns in a row the waits never shorten, and every one lies
      between the policy's initial and maximum. */
  lemma FruitlessWaitsNeverShorten(turns: seq<TurnOutcome>, policy: Backoff.Policy, i: nat, j: nat)
    requires Backoff.Valid(policy) && i <= j < |turns| && forall k :: i <= k <= j ==> Fruitless(turns[k])
    ensures policy.initial <= Backoff.After(policy, Streak(turns, i + 1)) <= Backoff.After(policy, Streak(turns, j + 1)) <= policy.max
  {
    hide Backoff.After;
    StreakGrows(turns, i + 1, j + 1);
    Backoff.AfterIsBoundedAndMonotone(policy, Streak(turns, i + 1), Streak(turns, j + 1));
  }
}
