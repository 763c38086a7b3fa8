/**
 The queue consumer (internal/workers/consumer.go): what becomes of each message
 of a batch, which messages are still held, and what a shutdown gives back.
 */
module Consumer {
  import opened Prelude
  import Backoff

  /** A receipt handle: one delivery of one message. */
  type Handle = nat

  datatype Class = Retryable | NotFound | Conflict | Unretryable | OtherClass

  /** What handling one message met: whether its body parsed and made a command,
      what Submit answered, and whether the work was cancelled meanwhile. */
  datatype Attempt = Attempt(parsed: bool, commanded: bool, failure: Option<Class>, cancelled: bool, receives: int)

  datatype Disposition = Settled | Deferred(hidden: Time) | Poisoned | Abandoned

  predicate Transient(c: Class) { c == Retryable || c == NotFound }

  /** handle. */
  function DispositionOf(policy: Backoff.Policy, a: Attempt): Disposition
    requires Backoff.Valid(policy)
  {
    if !a.parsed || !a.commanded then Poisoned
    else if a.failure.None? then Settled
    else if a.cancelled then Abandoned
    else if !Transient(a.failure.value) then Poisoned
    else Deferred(Backoff.WholeSeconds(Backoff.After(policy, a.receives)))
  }

  datatype Fate = Deleted | Hidden(hidden: Time) | Left | Kept

  /** Every message taken and not yet decided about. */
  class HeldMessages {
    var handles: set<Handle>

    constructor ()
      ensures handles == {}
    {
      handles := {};
    }

    method Take(messages: seq<Handle>)
      modifies this
      ensures handles == old(handles) + (set i | 0 <= i < |messages| :: messages[i])
    {
      for i := 0 to |messages|
        invariant handles == old(handles) + (set j | 0 <= j < i :: messages[j])
      {
        handles := handles + {messages[i]};
      }
    }

    method Done(h: Handle)
      modifies this
      ensures handles == old(handles) - {h}
    {
      handles := handles - {h};
    }

    /** Empties the set, naming each handle in it once. */
    method Drain() returns (drained: seq<Handle>)
      modifies this
      ensures handles == {}
      ensures (set h | h in drained) == old(handles)
      ensures forall i, j :: 0 <= i < j < |drained| ==> drained[i] != drained[j]
    {
      drained := [];
      var left := handles;
      while left != {}
        invariant left <= handles && handles == old(handles)
        invariant forall h :: h in drained <==> h in handles && h !in left
        invariant forall i, j :: 0 <= i < j < |drained| ==> drained[i] != drained[j]
      {
        var h :| h in left;
        assert h !in drained;
        drained := drained + [h];
        left := left - {h};
      }
      handles := {};
    }
  }

  // ----- handleBatch ---------------------------------------------------------

  /** The first message that is not settled, or the first one the cancelled work
      never reached, or the end of the batch. */
  function StopsAt(policy: Backoff.Policy, attempts: seq<Attempt>, cancelledFrom: nat, i: nat): nat
    requires Backoff.Valid(policy) && i <= |attempts|
    decreases |attempts| - i
  {
    if i == |attempts| || i >= cancelledFrom || !DispositionOf(policy, attempts[i]).Settled? then i
    else StopsAt(policy, attempts, cancelledFrom, i + 1)
  }

  /** What stopping there means for every message of the batch. */
  function FateOf(policy: Backoff.Policy, attempts: seq<Attempt>, cancelledFrom: nat, i: nat): Fate
    requires Backoff.Valid(policy) && i < |attempts|
  {
    var stop := StopsAt(policy, attempts, cancelledFrom, 0);
    if i < stop then Deleted
    else if stop == |attempts| || stop >= cancelledFrom then Kept
    else match DispositionOf(policy, attempts[stop])
         case Settled => Deleted
         case Deferred(hidden) => Hidden(hidden)
         case Poisoned => Left
         case Abandoned => Kept
  }

  /** handleBatch: the handled messages are a prefix in which all but the last are
      settled; every message meets exactly one fate; and exactly the kept ones
      are still held. */
  method HandleBatch(
    policy: Backoff.Policy, held: HeldMessages, messages: seq<Handle>, attempts: seq<Attempt>, cancelledFrom: nat)
    returns (fates: seq<Fate>, handled: nat)
    requires Backoff.Valid(policy) && |attempts| == |messages|
    requires forall i, j :: 0 <= i < j < |messages| ==> messages[i] != messages[j]
    modifies held
    ensures |fates| == |messages| && handled <= |messages|
    ensures forall i :: 0 <= i < |messages| ==> fates[i] == FateOf(policy, attempts, cancelledFrom, i)
    ensures forall i :: 0 <= i < handled - 1 ==> DispositionOf(policy, attempts[i]).Settled?
    ensures handled <= cancelledFrom
    ensures handled < |messages| ==>
              handled >= cancelledFrom || (handled > 0 && !DispositionOf(policy, attempts[handled - 1]).Settled?)
    ensures held.handles == old(held.handles) - (set i | 0 <= i < |messages| && fates[i] != Kept :: messages[i])
  {
    hide Backoff.Valid, Backoff.After, Backoff.WholeSeconds;
    fates := [];
    var i := 0;
    while i < |messages|
      invariant 0 <= i <= |messages| && |fates| == i && i <= cancelledFrom
      invariant StopsAt(policy, attempts, cancelledFrom, 0) == StopsAt(policy, attempts, cancelledFrom, i)
      invariant forall j :: 0 <= j < i ==> fates[j] == Deleted && DispositionOf(policy, attempts[j]).Settled?
      invariant held.handles == old(held.handles) - (set j | 0 <= j < i :: messages[j])
    {
      if i >= cancelledFrom {
        assert StopsAt(policy, attempts, cancelledFrom, 0) == i;
        StopIsReached(policy, attempts, cancelledFrom, 0);
        fates := fates + seq(|messages| - i, _ => Kept);
        return fates, i;
      }
      var decided := DispositionOf(policy, attempts[i]);
      match decided
      case Settled =>
        held.Done(messages[i]);
        fates := fates + [Deleted];
        i := i + 1;
      case Deferred(hidden) =>
        StopIsReached(policy, attempts, cancelledFrom, 0);
        fates := DoneWithTheRest(held, messages, i, fates, Hidden(hidden));
        return fates, i + 1;
      case Poisoned =>
        StopIsReached(policy, attempts, cancelledFrom, 0);
        fates := DoneWithTheRest(held, messages, i, fates, Left);
        return fates, i + 1;
      case Abandoned =>
        StopIsReached(policy, attempts, cancelledFrom, 0);
        fates := fates + seq(|messages| - i, _ => Kept);
        return fates, i + 1;
    }
    StopIsReached(policy, attempts, cancelledFrom, 0);
    return fates, i;
  }

  /** The message that stopped the batch and everything behind it, alike. */
  method DoneWithTheRest(held: HeldMessages, messages: seq<Handle>, from: nat, before: seq<Fate>, fate: Fate)
    returns (fates: seq<Fate>)
    requires from <= |messages| && |before| == from
    modifies held
    ensures |fates| == |messages| && fates[..from] == before && forall i :: from <= i < |messages| ==> fates[i] == fate
    ensures held.handles == old(held.handles) - (set i | from <= i < |messages| :: messages[i])
  {
    fates := before;
    for i := from to |messages|
      invariant |fates| == i && fates[..from] == before && forall j :: from <= j < i ==> fates[j] == fate
      invariant held.handles == old(held.handles) - (set j | from <= j < i :: messages[j])
    {
      held.Done(messages[i]);
      fates := fates + [fate];
    }
  }

  lemma {:induction false} StopIsReached(policy: Backoff.Policy, attempts: seq<Attempt>, cancelledFrom: nat, i: nat)
    requires Backoff.Valid(policy) && i <= |attempts|
    ensures var stop := StopsAt(policy, attempts, cancelledFrom, i);
            && i <= stop <= |attempts|
            && (forall j :: i <= j < stop ==> DispositionOf(policy, attempts[j]).Settled?)
            && (stop < |attempts| && stop < cancelledFrom ==> !DispositionOf(policy, attempts[stop]).Settled?)
            && (stop == i || stop <= cancelledFrom)
    decreases |attempts| - i
  {
    if i < |attempts| && i < cancelledFrom && DispositionOf(policy, attempts[i]).Settled? {
      StopIsReached(policy, attempts, cancelledFrom, i + 1);
    }
  }

  /** A message is deleted only behind a Submit that answered without error. */
  lemma DeletedWasCommitted(policy: Backoff.Policy, attempts: seq<Attempt>, cancelledFrom: nat, i: nat)
    requires Backoff.Valid(policy) && i < |attempts| && FateOf(policy, attempts, cancelledFrom, i) == Deleted
    ensures attempts[i].parsed && attempts[i].commanded && attempts[i].failure.None? && i < cancelledFrom
    ensures forall j :: 0 <= j <= i ==> FateOf(policy, attempts, cancelledFrom, j) == Deleted
  {
    hide Backoff.Valid, Backoff.After, Backoff.WholeSeconds;
    StopIsReached(policy, attempts, cancelledFrom, 0);
  }

  /** The body parsed, made a command, and Submit answered without error. */
  predicate Succeeded(a: Attempt) {
    a.parsed && a.commanded && a.failure == None
  }

  lemma {:induction false} StopsThere(policy: Backoff.Policy, attempts: seq<Attempt>, cancelledFrom: nat, i: nat, k: nat)
    requires Backoff.Valid(policy) && i <= k <= |attempts| && k <= cancelledFrom
    requires forall j :: i <= j < k ==> Succeeded(attempts[j])
    requires k < |attempts| && k < cancelledFrom ==> !Succeeded(attempts[k])
    ensures StopsAt(policy, attempts, cancelledFrom, i) == k
    decreases k - i
  {
    hide Backoff.Valid, Backoff.After, Backoff.WholeSeconds;
    if i < k {
      StopsThere(policy, attempts, cancelledFrom, i + 1, k);
    }
  }

  /** What becomes of a batch, told from its attempts alone. Everything before the
      first attempt that did not succeed is deleted; it and everything behind it
      meet one fate: hidden, for the whole-second wait of its receive count, when
      Submit failed in a way worth another delivery; left for the redrive policy
      when it can never succeed; kept when it failed with the work cancelled. A
      batch cancelled first keeps the rest. */
  lemma FatesExactly(policy: Backoff.Policy, attempts: seq<Attempt>, cancelledFrom: nat, k: nat, i: nat)
    requires Backoff.Valid(policy) && k <= |attempts| && k <= cancelledFrom && i < |attempts|
    requires forall j :: 0 <= j < k ==> Succeeded(attempts[j])
    requires k < |attempts| && k < cancelledFrom ==> !Succeeded(attempts[k])
    ensures var fate := FateOf(policy, attempts, cancelledFrom, i);
            if i < k then fate == Deleted
            else if k == cancelledFrom then fate == Kept
            else
              var a := attempts[k];
              var retry := a.failure == Some(Retryable) || a.failure == Some(NotFound);
              && fate != Deleted
              && (fate.Hidden? <==> a.parsed && a.commanded && retry && !a.cancelled)
              && (fate.Hidden? ==> fate.hidden == Backoff.WholeSeconds(Backoff.After(policy, a.receives)))
              && (fate == Left <==> !a.parsed || !a.commanded || (a.failure.Some? && !retry && !a.cancelled))
              && (fate == Kept <==> a.parsed && a.commanded && a.failure.Some? && a.cancelled)
  {
    hide Backoff.Valid, Backoff.After, Backoff.WholeSeconds;
    StopsThere(policy, attempts, cancelledFrom, 0, k);
  }
}
