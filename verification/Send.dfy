/**
 Putting messages on a queue (internal/adapters/sqs/send.go): validation, packing
 into calls, and putting each call's answer back where it belongs. Text is kept
 as its length in bytes, which is all the bounds read.
 */
module Send {
  import opened Prelude

  const MAX_ENTRIES: nat := 10
  const MAX_BYTES: nat := 256 * 1024
  const MAX_ID_BYTES: nat := 128

  datatype Outbound = Outbound(body: nat, attributes: nat, attributesAllowed: bool, group: nat, deduplication: nat)

  datatype SendError = Invalid | CallFailed | Aborted | RefusedByQueue | Unreported

  /** A zero value reads as sent: a result nobody wrote would be a lie. */
  datatype SendResult = SendResult(messageId: nat, error: Option<SendError>)

  datatype Plan = Plan(index: nat, size: nat)

  /** What one SendMessageBatch answers. An id that is no number is None. */
  datatype Reply =
    | CallError
    | Answer(successful: seq<(Option<int>, nat)>, failed: seq<Option<int>>)

  predicate Sent(r: SendResult) { r.error.None? }

  function SizeOf(m: Outbound): nat { m.body + m.attributes }

  /** What Outbound.entry lets through. */
  predicate Acceptable(m: Outbound) {
    && m.body > 0
    && 0 < m.group <= MAX_ID_BYTES
    && 0 < m.deduplication <= MAX_ID_BYTES
    && SizeOf(m) <= MAX_BYTES
    && m.attributesAllowed
  }

  // ----- chunk ---------------------------------------------------------------

  function Weight(b: seq<Plan>): nat {
    if b == [] then 0 else Weight(b[..|b| - 1]) + b[|b| - 1].size
  }

  function Concat(batches: seq<seq<Plan>>): seq<Plan> {
    if batches == [] then [] else Concat(batches[..|batches| - 1]) + batches[|batches| - 1]
  }

  predicate Fits(b: seq<Plan>) {
    |b| <= MAX_ENTRIES && Weight(b) <= MAX_BYTES
  }

  predicate NoneEmpty(batches: seq<seq<Plan>>) {
    forall k :: 0 <= k < |batches| ==> batches[k] != []
  }

  predicate AllFit(batches: seq<seq<Plan>>) {
    forall k :: 0 <= k < |batches| ==> Fits(batches[k])
  }

  /** No batch could have taken the message that starts the next one. */
  predicate Packed(batches: seq<seq<Plan>>)
    requires NoneEmpty(batches)
  {
    forall k :: 1 <= k < |batches| ==> !Fits(batches[k - 1] + [batches[k][0]])
  }

  lemma WeightAppends(b: seq<Plan>, p: Plan)
    ensures Weight(b + [p]) == Weight(b) + p.size
  {
    assert (b + [p])[..|b|] == b;
  }

  lemma ConcatAppends(batches: seq<seq<Plan>>, b: seq<Plan>)
    ensures Concat(batches + [b]) == Concat(batches) + b
  {
    assert (batches + [b])[..|batches|] == batches;
  }

  /** The state of packing after i messages: what is flushed, what is being
      filled, and why the last flush had to happen. */
  ghost predicate Filling(plans: seq<Plan>, i: nat, batches: seq<seq<Plan>>, current: seq<Plan>)
    requires i <= |plans|
  {
    && Concat(batches) + current == plans[..i]
    && NoneEmpty(batches) && Packed(batches)
    && (current == [] ==> batches == [])
    && (batches != [] ==> !Fits(batches[|batches| - 1] + [current[0]]))
    && |current| <= MAX_ENTRIES && (forall k :: 0 <= k < |batches| ==> |batches[k]| <= MAX_ENTRIES)
  }

  ghost predicate Within(plans: seq<Plan>, batches: seq<seq<Plan>>, current: seq<Plan>) {
    (forall j :: 0 <= j < |plans| ==> plans[j].size <= MAX_BYTES) ==> AllFit(batches) && Weight(current) <= MAX_BYTES
  }

  lemma FillMore(plans: seq<Plan>, i: nat, batches: seq<seq<Plan>>, current: seq<Plan>)
    requires i < |plans| && Filling(plans, i, batches, current) && |current| < MAX_ENTRIES
    ensures Filling(plans, i + 1, batches, current + [plans[i]])
  {
    hide Concat, Fits;
    assert plans[..i + 1] == plans[..i] + [plans[i]];
    assert current != [] ==> (current + [plans[i]])[0] == current[0];
  }

  lemma Flush(plans: seq<Plan>, i: nat, batches: seq<seq<Plan>>, current: seq<Plan>)
    requires i < |plans| && Filling(plans, i, batches, current) && current != [] && !Fits(current + [plans[i]])
    ensures Filling(plans, i + 1, batches + [current], [plans[i]])
  {
    hide Concat, Fits;
    assert plans[..i + 1] == plans[..i] + [plans[i]];
    ConcatAppends(batches, current);
    PackOneMore(batches, current);
  }

  /** Every message once and in order; no empty call; every call within both
      bounds when every message is; and no call that could have taken more. */
  method Chunk(plans: seq<Plan>) returns (batches: seq<seq<Plan>>)
    ensures Concat(batches) == plans
    ensures NoneEmpty(batches) && Packed(batches)
    ensures forall k :: 0 <= k < |batches| ==> |batches[k]| <= 10
    ensures (forall i :: 0 <= i < |plans| ==> plans[i].size <= 262144) ==>
              AllFit(batches) && forall k :: 0 <= k < |batches| ==> Weight(batches[k]) <= 262144
  {
    hide Concat, Weight, Packed, NoneEmpty, Filling;
    batches := [];
    var current: seq<Plan> := [];
    var weight := 0;
    StartsEmpty(plans);
    for i := 0 to |plans|
      invariant Filling(plans, i, batches, current) && |current| <= MAX_ENTRIES && (current == [] ==> i == 0)
      invariant weight == Weight(current) && Within(plans, batches, current)
    {
      var p := plans[i];
      var full := |current| == MAX_ENTRIES || weight + p.size > MAX_BYTES;
      WeightAppends(current, p);
      if full && |current| > 0 {
        assert !Fits(current + [p]);
        Flush(plans, i, batches, current);
        batches := batches + [current];
        current, weight := [], 0;
        Nothing();
        WeightAppends(current, p);
        assert [] + [p] == [p];
      } else {
        FillMore(plans, i, batches, current);
      }
      current := current + [p];
      weight := weight + p.size;
    }
    Finish(plans, batches, current);
    if |current| > 0 {
      batches := batches + [current];
    }
  }

  lemma StartsEmpty(plans: seq<Plan>)
    ensures Filling(plans, 0, [], []) && Weight([]) == 0
  {
  }

  lemma Finish(plans: seq<Plan>, batches: seq<seq<Plan>>, current: seq<Plan>)
    requires Filling(plans, |plans|, batches, current)
    ensures var all := if |current| > 0 then batches + [current] else batches;
            && Concat(all) == plans && NoneEmpty(all) && Packed(all)
            && forall k :: 0 <= k < |all| ==> |all[k]| <= MAX_ENTRIES
  {
    hide Concat, Fits;
    assert plans[..|plans|] == plans;
    if |current| > 0 {
      ConcatAppends(batches, current);
      PackOneMore(batches, current);
    }
  }

  lemma Nothing()
    ensures Weight([]) == 0 && Concat([]) == []
  {
  }

  lemma PackOneMore(batches: seq<seq<Plan>>, b: seq<Plan>)
    requires NoneEmpty(batches) && Packed(batches) && b != []
    requires batches != [] ==> !Fits(batches[|batches| - 1] + [b[0]])
    ensures NoneEmpty(batches + [b]) && Packed(batches + [b])
  {
    hide Fits;
    var more := batches + [b];
    forall k | 1 <= k < |more|
      ensures !Fits(more[k - 1] + [more[k][0]])
    {
      if k < |batches| {
        assert more[k - 1] == batches[k - 1] && more[k] == batches[k];
      }
    }
  }

  // ----- The fewest calls ----------------------------------------------------

  /** Concat from the front. */
  lemma {:induction false} ConcatHead(batches: seq<seq<Plan>>)
    requires batches != []
    ensures Concat(batches) == batches[0] + Concat(batches[1..])
  {
    hide Concat;
    var n := |batches|;
    var init, last := batches[..n - 1], batches[n - 1];
    assert batches == init + [last];
    ConcatAppends(init, last);
    Nothing();
    if n == 1 {
      assert batches[1..] == [];
    } else {
      ConcatHead(init);
      ConcatAppends(init[1..], last);
      assert batches[1..] == init[1..] + [last];
    }
  }

  lemma {:induction false} WeightOfPart(b: seq<Plan>, i: nat, j: nat)
    requires i <= j <= |b|
    ensures Weight(b[i..j]) <= Weight(b)
  {
    hide Weight;
    if i == j {
      Nothing();
      assert b[i..j] == [];
    } else {
      var init, last := b[..|b| - 1], b[|b| - 1];
      assert b == init + [last];
      WeightAppends(init, last);
      if j == |b| {
        WeightOfPart(init, i, j - 1);
        assert b[i..j] == init[i..j - 1] + [last];
        WeightAppends(init[i..j - 1], last);
      } else {
        WeightOfPart(init, i, j);
        assert b[i..j] == init[i..j];
      }
    }
  }

  /** A part of a call that fits, fits. */
  lemma PartFits(b: seq<Plan>, i: nat, j: nat)
    requires i <= j <= |b| && Fits(b)
    ensures Fits(b[i..j])
  {
    WeightOfPart(b, i, j);
  }

  /** Of two splits of the same messages, the greedy one is never behind: even
      given `cut` fewer messages at the front it needs no more calls. */
  lemma {:induction false} NeverBehind(mine: seq<seq<Plan>>, other: seq<seq<Plan>>, cut: nat)
    requires NoneEmpty(mine) && Packed(mine) && AllFit(other)
    requires cut <= |Concat(other)| && Concat(mine) == Concat(other)[cut..]
    ensures |mine| <= |other|
    decreases |other|
  {
    hide Fits, Concat;
    if mine != [] {
      ConcatHead(mine);
      if other == [] {
        Nothing();
      } else {
        ConcatHead(other);
        var first := other[0];
        if cut >= |first| {
          assert Concat(other)[cut..] == Concat(other[1..])[cut - |first|..];
          NeverBehind(mine, other[1..], cut - |first|);
        } else {
          FirstReaches(mine, other, cut);
          var reach := |mine[0]| - (|first| - cut);
          assert Concat(mine[1..]) == Concat(other)[cut..][|mine[0]|..];
          assert Concat(other)[cut..][|mine[0]|..] == Concat(other[1..])[reach..];
          PackedTail(mine);
          NeverBehind(mine[1..], other[1..], reach);
        }
      }
    }
  }

  lemma PackedTail(mine: seq<seq<Plan>>)
    requires NoneEmpty(mine) && Packed(mine) && mine != []
    ensures NoneEmpty(mine[1..]) && Packed(mine[1..])
  {
    hide Fits;
    var rest := mine[1..];
    forall k | 1 <= k < |rest|
      ensures !Fits(rest[k - 1] + [rest[k][0]])
    {
      assert rest[k - 1] == mine[k + 1 - 1] && rest[k] == mine[k + 1];
    }
  }

  /** The greedy first call goes at least as far as the other's. */
  lemma FirstReaches(mine: seq<seq<Plan>>, other: seq<seq<Plan>>, cut: nat)
    requires NoneEmpty(mine) && Packed(mine) && AllFit(other) && mine != [] && other != []
    requires cut < |other[0]| && cut <= |Concat(other)| && Concat(mine) == Concat(other)[cut..]
    ensures |mine[0]| >= |other[0]| - cut
  {
    hide Fits, Concat;
    ConcatHead(mine);
    ConcatHead(other);
    var b, first := mine[0], other[0];
    if |b| < |first| - cut {
      PartFits(first, cut, cut + |b| + 1);
      OneMoreIsAPart(mine, other, cut);
    }
  }

  lemma OneMoreIsAPart(mine: seq<seq<Plan>>, other: seq<seq<Plan>>, cut: nat)
    requires NoneEmpty(mine) && mine != [] && other != []
    requires cut + |mine[0]| < |other[0]| && cut <= |Concat(other)| && Concat(mine) == Concat(other)[cut..]
    ensures |mine| > 1 && mine[0] + [mine[1][0]] == other[0][cut..cut + |mine[0]| + 1]
  {
    hide Concat;
    ConcatHead(mine);
    ConcatHead(other);
    Nothing();
    var b, first := mine[0], other[0];
    assert |Concat(mine)| >= |first| - cut;
    assert mine[1..] != [];
    ConcatHead(mine[1..]);
    assert Concat(mine)[..|b| + 1] == b + [mine[1][0]];
    assert Concat(other)[cut..][..|b| + 1] == first[cut..cut + |b| + 1];
  }

  /** No contiguous, order-preserving split within the bounds uses fewer calls. */
  lemma FewestCalls(mine: seq<seq<Plan>>, other: seq<seq<Plan>>)
    requires NoneEmpty(mine) && Packed(mine) && AllFit(other) && Concat(mine) == Concat(other)
    ensures |mine| <= |other|
  {
    assert Concat(other)[0..] == Concat(other);
    NeverBehind(mine, other, 0);
  }

  // ----- record --------------------------------------------------------------

  predicate Carries(batch: seq<Plan>, i: int) {
    exists k :: 0 <= k < |batch| && batch[k].index == i
  }

  predicate ReportedIn(successful: seq<(Option<int>, nat)>, i: int) {
    exists k :: 0 <= k < |successful| && successful[k].0 == Some(i)
  }

  /** Reported successful, and not also reported failed. */
  predicate ReportedSent(reply: Reply, i: int) {
    reply.Answer? && ReportedIn(reply.successful, i) && Some(i) !in reply.failed
  }

  /** record: only this batch's positions are written; a failure outweighs a
      success, and silence is a failure. */
  method Record(results: array<SendResult>, batch: seq<Plan>, reply: Reply)
    requires reply.Answer? && forall k :: 0 <= k < |batch| ==> batch[k].index < results.Length
    modifies results
    ensures forall i :: 0 <= i < results.Length ==>
              if Carries(batch, i) then (Sent(results[i]) <==> ReportedSent(reply, i)) else results[i] == old(results[i])
  {
    var answered: set<int> := {};
    for n := 0 to |reply.successful|
      invariant forall i :: i in answered <==> Carries(batch, i) && ReportedIn(reply.successful[..n], i)
      invariant forall i :: 0 <= i < results.Length ==>
                  if i in answered then Sent(results[i]) else results[i] == old(results[i])
    {
      var id := reply.successful[n].0;
      ReportedMore(reply.successful, n);
      if id.Some? && Carries(batch, id.value) {
        answered := answered + {id.value};
        results[id.value] := SendResult(reply.successful[n].1, None);
      }
    }
    assert reply.successful[..|reply.successful|] == reply.successful;
    var refused: set<int> := {};
    for n := 0 to |reply.failed|
      invariant forall i :: i in refused <==> Carries(batch, i) && Some(i) in reply.failed[..n]
      invariant forall i :: 0 <= i < results.Length ==>
                  if i in refused then !Sent(results[i])
                  else if i in answered then Sent(results[i]) else results[i] == old(results[i])
    {
      var id := reply.failed[n];
      if id.Some? && Carries(batch, id.value) {
        refused := refused + {id.value};
        results[id.value] := SendResult(0, Some(RefusedByQueue));
      }
    }
    assert reply.failed[..|reply.failed|] == reply.failed;
    for n := 0 to |batch|
      invariant forall i :: 0 <= i < results.Length ==>
                  if i in refused then !Sent(results[i])
                  else if i in answered then Sent(results[i])
                  else if Carries(batch[..n], i) then !Sent(results[i]) else results[i] == old(results[i])
    {
      var i := batch[n].index;
      CarriesMore(batch, n);
      if i !in answered && i !in refused {
        results[i] := results[i].(error := Some(Unreported));
      }
    }
    assert batch[..|batch|] == batch;
  }

  lemma ReportedMore(successful: seq<(Option<int>, nat)>, n: nat)
    requires n < |successful|
    ensures forall i :: ReportedIn(successful[..n + 1], i) <==> ReportedIn(successful[..n], i) || successful[n].0 == Some(i)
  {
    forall i
      ensures ReportedIn(successful[..n + 1], i) <==> ReportedIn(successful[..n], i) || successful[n].0 == Some(i)
    {
      if k :| 0 <= k < |successful[..n]| && successful[..n][k].0 == Some(i) {
        assert successful[..n + 1][k].0 == Some(i);
      }
      if successful[n].0 == Some(i) {
        assert successful[..n + 1][n].0 == Some(i);
      }
    }
  }

  lemma CarriesMore(batch: seq<Plan>, n: nat)
    requires n < |batch|
    ensures forall i :: Carries(batch[..n + 1], i) <==> Carries(batch[..n], i) || batch[n].index == i
  {
    forall i
      ensures Carries(batch[..n + 1], i) <==> Carries(batch[..n], i) || batch[n].index == i
    {
      if k :| 0 <= k < |batch[..n]| && batch[..n][k].index == i {
        assert batch[..n + 1][k].index == i;
      }
      if batch[n].index == i {
        assert batch[..n + 1][n].index == i;
      }
    }
  }

  // ----- SendBatch -----------------------------------------------------------

  /** The messages that passed validation, by position. */
  function PlansOf(messages: seq<Outbound>, n: nat): seq<Plan>
    requires n <= |messages|
  {
    if n == 0 then []
    else if Acceptable(messages[n - 1]) then PlansOf(messages, n - 1) + [Plan(n - 1, SizeOf(messages[n - 1]))]
    else PlansOf(messages, n - 1)
  }

  predicate Ascending(plans: seq<Plan>) {
    forall i, j :: 0 <= i < j < |plans| ==> plans[i].index < plans[j].index
  }

  lemma {:induction false} PlansFacts(messages: seq<Outbound>, n: nat)
    requires n <= |messages|
    ensures Ascending(PlansOf(messages, n))
    ensures forall k :: 0 <= k < |PlansOf(messages, n)| ==>
              var p := PlansOf(messages, n)[k];
              p.index < n && p.size <= MAX_BYTES && p.size == messages[p.index].body + messages[p.index].attributes
    ensures forall i :: 0 <= i < n ==> (Carries(PlansOf(messages, n), i) <==> Acceptable(messages[i]))
  {
    if n > 0 {
      PlansFacts(messages, n - 1);
      var before, plans := PlansOf(messages, n - 1), PlansOf(messages, n);
      if Acceptable(messages[n - 1]) {
        CarriesMore(plans, |before|);
        assert plans[..|before| + 1] == plans && plans[..|before|] == before;
      }
      forall i | 0 <= i < n
        ensures Carries(plans, i) <==> Acceptable(messages[i])
      {
        if i == n - 1 && !Acceptable(messages[i]) {
          assert !Carries(before, i);
        }
      }
    }
  }

  /** The first k calls, and no fewer, were answered. */
  predicate Returned(service: nat -> Reply, k: nat) {
    forall c :: 0 <= c < k ==> service(c).Answer?
  }

  /** One of the first k calls carried message i, was answered together with every
      call before it, and reported i sent. */
  ghost predicate Delivered(batches: seq<seq<Plan>>, service: nat -> Reply, i: int, k: nat)
    requires k <= |batches|
  {
    exists b :: 0 <= b < k && Carries(batches[b], i) && Returned(service, b + 1) && ReportedSent(service(b), i)
  }

  lemma {:induction false} ConcatCarries(batches: seq<seq<Plan>>, b: nat, i: int)
    requires b < |batches| && Carries(batches[b], i)
    ensures Carries(Concat(batches), i)
  {
    var n := |batches|;
    var last := batches[n - 1];
    if b == n - 1 {
      var k :| 0 <= k < |last| && last[k].index == i;
      assert Concat(batches)[|Concat(batches[..n - 1])| + k].index == i;
    } else {
      ConcatCarries(batches[..n - 1], b, i);
      var init := Concat(batches[..n - 1]);
      var k :| 0 <= k < |init| && init[k].index == i;
      assert Concat(batches)[k].index == i;
    }
  }

  lemma {:induction false} CarriedBySome(batches: seq<seq<Plan>>, i: int) returns (b: nat)
    requires Carries(Concat(batches), i)
    ensures b < |batches| && Carries(batches[b], i)
  {
    var n := |batches|;
    var init, last := Concat(batches[..n - 1]), batches[n - 1];
    var k :| 0 <= k < |Concat(batches)| && Concat(batches)[k].index == i;
    if k < |init| {
      assert init[k].index == i;
      b := CarriedBySome(batches[..n - 1], i);
    } else {
      assert last[k - |init|].index == i;
      b := n - 1;
    }
  }

  /** No message is in two calls. */
  lemma CarriedOnce(batches: seq<seq<Plan>>, b: nat, c: nat, i: int)
    requires Ascending(Concat(batches)) && b < c < |batches| && Carries(batches[b], i)
    ensures !Carries(batches[c], i)
  {
    hide Concat, Ascending;
    ConcatSplits(batches, c);
    var front := batches[..c];
    assert front[b] == batches[b];
    ConcatCarries(front, b, i);
    AscendingParts(Concat(batches), Concat(front), batches[c], i);
  }

  lemma AscendingParts(whole: seq<Plan>, front: seq<Plan>, part: seq<Plan>, i: int)
    requires Ascending(whole) && |front| + |part| <= |whole| && Carries(front, i)
    requires whole[..|front|] == front && whole[|front|..|front| + |part|] == part
    ensures !Carries(part, i)
  {
    var x :| 0 <= x < |front| && front[x].index == i;
    forall y | 0 <= y < |part|
      ensures i < part[y].index
    {
      assert whole[x] == front[x] && whole[|front| + y] == part[y];
    }
  }

  lemma {:induction false} ConcatSplits(batches: seq<seq<Plan>>, c: nat)
    requires c < |batches|
    ensures |Concat(batches[..c])| + |batches[c]| <= |Concat(batches)|
    ensures Concat(batches)[..|Concat(batches[..c])|] == Concat(batches[..c])
    ensures Concat(batches)[|Concat(batches[..c])|..|Concat(batches[..c])| + |batches[c]|] == batches[c]
  {
    var n := |batches|;
    if c < n - 1 {
      var init := batches[..n - 1];
      ConcatSplits(init, c);
      assert init[..c] == batches[..c];
    }
  }

  /** SendBatch: result i says sent exactly when message i passed validation, its
      call returned, and that call reported it successful and not failed; and no
      call carries more than ten messages or 256 KiB of bodies and attributes. */
  method SendBatch(resolved: bool, messages: seq<Outbound>, service: nat -> Reply)
    returns (answer: Result<seq<SendResult>, SendError>, ghost batches: seq<seq<Plan>>)
    ensures answer.Err? <==> messages != [] && !resolved
    ensures answer.Ok? ==>
              && |answer.value| == |messages|
              && Concat(batches) == PlansOf(messages, |messages|) && NoneEmpty(batches) && Packed(batches)
              && (forall b :: 0 <= b < |batches| ==> |batches[b]| <= 10 && Weight(batches[b]) <= 262144)
              && (forall b, k :: 0 <= b < |batches| && 0 <= k < |batches[b]| ==> Billed(messages, batches[b][k]))
              && forall i :: 0 <= i < |messages| ==>
                   var m := messages[i];
                   (answer.value[i].error.None? <==>
                      && m.body > 0 && 0 < m.group <= 128 && 0 < m.deduplication <= 128
                      && m.body + m.attributes <= 262144 && m.attributesAllowed
                      && Delivered(batches, service, i, |batches|))
  {
    hide Concat, PlansOf, Packed, Weight, Delivered;
    answer, batches := SendAcceptable(resolved, messages, service);
    if answer.Ok? {
      CallsAreBilled(batches, messages);
    }
  }

  /** A plan weighs its message's body and attributes. */
  predicate Billed(messages: seq<Outbound>, p: Plan) {
    p.index < |messages| && p.size == messages[p.index].body + messages[p.index].attributes
  }

  lemma CallsAreBilled(batches: seq<seq<Plan>>, messages: seq<Outbound>)
    requires Concat(batches) == PlansOf(messages, |messages|)
    ensures forall b, k :: 0 <= b < |batches| && 0 <= k < |batches[b]| ==> Billed(messages, batches[b][k])
  {
    hide Concat, PlansOf;
    if batches != [] {
      PlansInRange(batches, 0, messages);
    }
  }

  method SendAcceptable(resolved: bool, messages: seq<Outbound>, service: nat -> Reply)
    returns (answer: Result<seq<SendResult>, SendError>, ghost batches: seq<seq<Plan>>)
    ensures answer.Err? <==> messages != [] && !resolved
    ensures answer.Ok? ==>
              && |answer.value| == |messages|
              && Concat(batches) == PlansOf(messages, |messages|) && NoneEmpty(batches) && AllFit(batches) && Packed(batches)
              && forall i :: 0 <= i < |messages| ==>
                   (Sent(answer.value[i]) <==> Acceptable(messages[i]) && Delivered(batches, service, i, |batches|))
  {
    hide Concat, PlansOf, Packed, Fits, ReportedSent, Carries, Ascending, Acceptable;
    batches := [];
    if messages == [] {
      NoPlans(messages);
      return Ok([]), [];
    }
    if !resolved {
      return Err(CallFailed), [];
    }
    var results := new SendResult[|messages|](_ => SendResult(0, None));
    var plans := Validate(messages, results);
    PlansFacts(messages, |messages|);
    var packed := Chunk(plans);
    batches := packed;
    var k := 0;
    Untouched(packed);
    while k < |packed|
      invariant 0 <= k <= |packed| && Returned(service, k)
      invariant Told(packed, service, k, messages, results[..])
    {
      ghost var before := results[..];
      PlansInRange(packed, k, messages);
      if service(k).CallError? {
        Fail(results, packed[k..]);
        Stopped(packed, service, k, messages, before, results[..]);
        return Ok(results[..]), packed;
      }
      Record(results, packed[k], service(k));
      OneMoreCall(packed, service, k, messages, before, results[..]);
      k := k + 1;
    }
    AllCalls(packed, service, messages, results[..]);
    return Ok(results[..]), packed;
  }

  lemma NoPlans(messages: seq<Outbound>)
    requires messages == []
    ensures PlansOf(messages, 0) == [] && Concat([]) == [] && Packed([])
  {
  }

  /** The validation loop: what is refused is refused for good. */
  method Validate(messages: seq<Outbound>, results: array<SendResult>) returns (plans: seq<Plan>)
    requires results.Length == |messages|
    requires forall i :: 0 <= i < results.Length ==> results[i] == SendResult(0, None)
    modifies results
    ensures plans == PlansOf(messages, |messages|)
    ensures forall i :: 0 <= i < results.Length ==> (Sent(results[i]) <==> Acceptable(messages[i]))
  {
    plans := [];
    for i := 0 to |messages|
      invariant plans == PlansOf(messages, i)
      invariant forall j :: 0 <= j < results.Length ==>
                  if j < i then (Sent(results[j]) <==> Acceptable(messages[j])) else results[j] == SendResult(0, None)
    {
      if Acceptable(messages[i]) {
        plans := plans + [Plan(i, SizeOf(messages[i]))];
      } else {
        results[i] := SendResult(0, Some(Invalid));
      }
    }
  }

  /** A call that failed, and abort: its own messages and every later call's. */
  method Fail(results: array<SendResult>, remaining: seq<seq<Plan>>)
    requires forall b :: 0 <= b < |remaining| ==> forall k :: 0 <= k < |remaining[b]| ==> remaining[b][k].index < results.Length
    modifies results
    ensures forall i :: 0 <= i < results.Length ==>
              if exists b :: 0 <= b < |remaining| && Carries(remaining[b], i) then !Sent(results[i]) else results[i] == old(results[i])
  {
    hide Sent;
    for b := 0 to |remaining|
      invariant forall i :: 0 <= i < results.Length ==>
                  if exists c :: 0 <= c < b && Carries(remaining[c], i) then results[i].error.Some? else results[i] == old(results[i])
    {
      FailOne(results, remaining[b], if b == 0 then CallFailed else Aborted);
    }
    ErrorIsNotSent(results[..]);
  }

  lemma ErrorIsNotSent(results: seq<SendResult>)
    ensures forall i :: 0 <= i < |results| ==> (results[i].error.Some? <==> !Sent(results[i]))
  {
  }

  method FailOne(results: array<SendResult>, batch: seq<Plan>, cause: SendError)
    requires forall k :: 0 <= k < |batch| ==> batch[k].index < results.Length
    modifies results
    ensures forall i :: 0 <= i < results.Length ==>
              if Carries(batch, i) then results[i].error == Some(cause) else results[i] == old(results[i])
  {
    for n := 0 to |batch|
      invariant forall i :: 0 <= i < results.Length ==>
                  if Carries(batch[..n], i) then results[i].error == Some(cause) else results[i] == old(results[i])
    {
      CarriesMore(batch, n);
      results[batch[n].index] := results[batch[n].index].(error := Some(cause));
    }
    assert batch[..|batch|] == batch;
  }

  // ----- Why the results are right -------------------------------------------

  /** After k answered calls: what they carried is told truly, what validation
      refused is refused, and nothing else has been said. */
  ghost predicate Told(batches: seq<seq<Plan>>, service: nat -> Reply, k: nat, messages: seq<Outbound>, results: seq<SendResult>)
    requires k <= |batches|
  {
    && |results| == |messages|
    && forall i :: 0 <= i < |messages| ==>
         && (!Acceptable(messages[i]) ==> !Sent(results[i]))
         && (CarriedBefore(batches, i, k) ==> (Sent(results[i]) <==> Delivered(batches, service, i, k)))
  }

  ghost predicate CarriedBefore(batches: seq<seq<Plan>>, i: int, k: nat)
    requires k <= |batches|
  {
    exists b :: 0 <= b < k && Carries(batches[b], i)
  }

  lemma Untouched(batches: seq<seq<Plan>>)
    ensures forall i :: !CarriedBefore(batches, i, 0)
  {
  }

  lemma PlansInRange(batches: seq<seq<Plan>>, k: nat, messages: seq<Outbound>)
    requires k < |batches| && Concat(batches) == PlansOf(messages, |messages|)
    ensures forall b :: k <= b < |batches| ==> forall n :: 0 <= n < |batches[b]| ==>
              var p := batches[b][n];
              p.index < |messages| && p.size == messages[p.index].body + messages[p.index].attributes
  {
    hide Concat, PlansOf;
    PlansFacts(messages, |messages|);
    forall b, n | k <= b < |batches| && 0 <= n < |batches[b]|
      ensures batches[b][n].index < |messages|
      ensures batches[b][n].size == messages[batches[b][n].index].body + messages[batches[b][n].index].attributes
    {
      ConcatSplits(batches, b);
      assert Concat(batches)[|Concat(batches[..b])| + n] == batches[b][n];
    }
  }

  lemma OneMoreCall(
    batches: seq<seq<Plan>>, service: nat -> Reply, k: nat, messages: seq<Outbound>,
    before: seq<SendResult>, after: seq<SendResult>)
    requires k < |batches| && Concat(batches) == PlansOf(messages, |messages|) && Ascending(Concat(batches))
    requires Told(batches, service, k, messages, before) && |after| == |before| && Returned(service, k) && service(k).Answer?
    requires forall i :: 0 <= i < |before| ==>
               if Carries(batches[k], i) then (Sent(after[i]) <==> ReportedSent(service(k), i)) else after[i] == before[i]
    ensures Returned(service, k + 1) && Told(batches, service, k + 1, messages, after)
  {
    hide Concat, PlansOf, ReportedSent, Carries, Sent, Ascending, Acceptable;
    forall i | 0 <= i < |messages|
      ensures !Acceptable(messages[i]) ==> !Sent(after[i])
      ensures CarriedBefore(batches, i, k + 1) ==> (Sent(after[i]) <==> Delivered(batches, service, i, k + 1))
    {
      if Carries(batches[k], i) {
        CarriedIsAcceptable(batches, k, messages, i);
        forall b | 0 <= b < k
          ensures !Carries(batches[b], i)
        {
          if Carries(batches[b], i) {
            CarriedOnce(batches, b, k, i);
          }
        }
      }
    }
  }

  lemma CarriedIsAcceptable(batches: seq<seq<Plan>>, b: nat, messages: seq<Outbound>, i: int)
    requires b < |batches| && Concat(batches) == PlansOf(messages, |messages|) && Carries(batches[b], i) && 0 <= i < |messages|
    ensures Acceptable(messages[i])
  {
    ConcatCarries(batches, b, i);
    PlansFacts(messages, |messages|);
  }

  lemma Stopped(
    batches: seq<seq<Plan>>, service: nat -> Reply, k: nat, messages: seq<Outbound>,
    before: seq<SendResult>, after: seq<SendResult>)
    requires k < |batches| && Concat(batches) == PlansOf(messages, |messages|) && Ascending(Concat(batches))
    requires Told(batches, service, k, messages, before) && |after| == |before| && service(k).CallError?
    requires forall i :: 0 <= i < |before| ==>
               if exists b :: 0 <= b < |batches[k..]| && Carries(batches[k..][b], i) then !Sent(after[i]) else after[i] == before[i]
    ensures forall i :: 0 <= i < |messages| ==>
              (Sent(after[i]) <==> Acceptable(messages[i]) && Delivered(batches, service, i, |batches|))
  {
    hide Concat, PlansOf, ReportedSent, Carries, Sent, Ascending, Acceptable;
    forall i | 0 <= i < |messages|
      ensures Sent(after[i]) <==> Acceptable(messages[i]) && Delivered(batches, service, i, |batches|)
    {
      DeliveredBefore(batches, service, k, i);
      if CarriedBefore(batches, i, k) {
        var b :| 0 <= b < k && Carries(batches[b], i);
        CarriedIsAcceptable(batches, b, messages, i);
        forall c | 0 <= c < |batches[k..]|
          ensures !Carries(batches[k..][c], i)
        {
          CarriedOnce(batches, b, k + c, i);
        }
      } else if Acceptable(messages[i]) {
        var b := AcceptableIsCarried(batches, messages, i);
        assert batches[k..][b - k] == batches[b];
      }
    }
  }

  lemma DeliveredBefore(batches: seq<seq<Plan>>, service: nat -> Reply, k: nat, i: int)
    requires k < |batches| && service(k).CallError?
    ensures Delivered(batches, service, i, |batches|) <==> Delivered(batches, service, i, k)
    ensures Delivered(batches, service, i, k) ==> CarriedBefore(batches, i, k)
  {
    hide ReportedSent, Carries;
  }

  lemma AcceptableIsCarried(batches: seq<seq<Plan>>, messages: seq<Outbound>, i: int) returns (b: nat)
    requires Concat(batches) == PlansOf(messages, |messages|) && 0 <= i < |messages| && Acceptable(messages[i])
    ensures b < |batches| && Carries(batches[b], i)
  {
    PlansFacts(messages, |messages|);
    b := CarriedBySome(batches, i);
  }

  lemma AllCalls(batches: seq<seq<Plan>>, service: nat -> Reply, messages: seq<Outbound>, results: seq<SendResult>)
    requires Concat(batches) == PlansOf(messages, |messages|) && Told(batches, service, |batches|, messages, results)
    ensures forall i :: 0 <= i < |messages| ==>
              (Sent(results[i]) <==> Acceptable(messages[i]) && Delivered(batches, service, i, |batches|))
  {
    hide Concat, PlansOf, ReportedSent, Carries, Sent, Acceptable;
    forall i | 0 <= i < |messages|
      ensures Sent(results[i]) <==> Acceptable(messages[i]) && Delivered(batches, service, i, |batches|)
    {
      if Acceptable(messages[i]) {
        var b := AcceptableIsCarried(batches, messages, i);
        assert CarriedBefore(batches, i, |batches|);
      }
    }
  }
}
