/**
 The signing-key cache (internal/adapters/oidc/keys.go): one refresh at a time,
 rate limited by a wall clock that may step backwards.
 */
module KeyCache {
  import opened Prelude

  type Kid = nat
  type Key = nat
  type Keys = map<Kid, Key>

  /** What a fetch came to. verifyingKeys refuses a document with no usable key. */
  datatype Fetched = Failure | Success(keys: Keys)

  predicate Plausible(f: Fetched) {
    f.Success? ==> f.keys != map[]
  }

  datatype Answer = Joined | Declined | Begun

  datatype KeyAnswer = Found(key: Key) | TurnedAway | GaveUp | UnknownKey

  /** lastFetch is absent until something has been fetched or has failed to be. */
  datatype Cache = Cache(keys: Keys, lastFetch: Option<Time>, inflight: bool)

  /** The stamp as startRefresh corrects it: never in the future. */
  function Stamp(c: Cache, now: Time): Option<Time> {
    if c.lastFetch.Some? && now < c.lastFetch.value then Some(now) else c.lastFetch
  }

  predicate TooSoon(stamp: Option<Time>, now: Time, interval: Time) {
    stamp.Some? && now - stamp.value < interval
  }

  function AnswerTo(c: Cache, now: Time, interval: Time): Answer {
    if c.inflight then Joined
    else if TooSoon(Stamp(c, now), now, interval) then Declined
    else Begun
  }

  function AfterAsking(c: Cache, now: Time, interval: Time): Cache {
    if c.inflight then c
    else c.(lastFetch := Stamp(c, now), inflight := !TooSoon(Stamp(c, now), now, interval))
  }

  /** runRefresh once its fetch is over: the stamp always, the keys on success. */
  function AfterRefresh(c: Cache, now: Time, f: Fetched): Cache {
    Cache(if f.Success? then f.keys else c.keys, Some(now), false)
  }

  /** prime: no limit to ask, and nothing stamped by a failure. */
  function AfterPrime(c: Cache, now: Time, f: Fetched): Cache {
    if f.Success? then c.(keys := f.keys, lastFetch := Some(now)) else c
  }

  class KeySet {
    const interval: Time
    var keys: Keys
    var lastFetch: Option<Time>
    var inflight: bool

    function Sees(): Cache
      reads this
    {
      Cache(keys, lastFetch, inflight)
    }

    constructor (interval: Time)
      ensures Sees() == Cache(map[], None, false) && this.interval == interval
    {
      this.interval := interval;
      keys, lastFetch, inflight := map[], None, false;
    }

    method Cached(kid: Kid) returns (key: Option<Key>)
      ensures key.Some? <==> kid in keys
      ensures key.Some? ==> key.value == keys[kid]
    {
      key := if kid in keys then Some(keys[kid]) else None;
    }

    /** key: a key in hand is answered and asks for nothing; otherwise one refresh
        is asked for, and the caller leaves with what it brought, unless it was
        declined or gave up waiting. `ended` is when the refresh it waited for
        finished and what it fetched. */
    method Lookup(kid: Kid, now: Time, ended: Option<(Time, Fetched)>) returns (answer: KeyAnswer)
      modifies this
      ensures kid in old(keys) ==> answer == Found(old(keys)[kid]) && Sees() == old(Sees())
      ensures kid !in old(keys) ==>
        var asked := AfterAsking(old(Sees()), now, interval);
        if AnswerTo(old(Sees()), now, interval).Declined? then answer == TurnedAway && Sees() == asked && !inflight
        else if ended.None? then answer == GaveUp && Sees() == asked && inflight
        else
          && Sees() == AfterRefresh(asked, ended.value.0, ended.value.1) && !inflight
          && (answer.Found? <==> ended.value.1.Success? && kid in ended.value.1.keys)
          && (answer.Found? ==> answer.key == ended.value.1.keys[kid])
          && (!answer.Found? ==> answer == UnknownKey)
    {
      var held := Cached(kid);
      if held.Some? {
        return Found(held.value);
      }
      var asked := StartRefresh(now);
      if asked.Declined? {
        return TurnedAway;
      }
      if ended.None? {
        return GaveUp;
      }
      FinishRefresh(ended.value.0, ended.value.1);
      held := Cached(kid);
      return if held.Some? then Found(held.value) else UnknownKey;
    }

    /** startRefresh: joining is looked at before the limit. */
    method StartRefresh(now: Time) returns (answer: Answer)
      modifies this
      ensures answer == AnswerTo(old(Sees()), now, interval)
      ensures Sees() == AfterAsking(old(Sees()), now, interval)
    {
      if inflight {
        return Joined;
      }
      if lastFetch.Some? && now < lastFetch.value {
        lastFetch := Some(now);
      }
      if lastFetch.Some? && now - lastFetch.value < interval {
        return Declined;
      }
      inflight := true;
      return Begun;
    }

    method FinishRefresh(now: Time, f: Fetched)
      modifies this
      ensures Sees() == AfterRefresh(old(Sees()), now, f)
      ensures lastFetch == Some(now) && !inflight && keys == if f.Success? then f.keys else old(keys)
    {
      lastFetch := Some(now);
      inflight := false;
      if f.Success? {
        keys := f.keys;
      }
    }

    method Prime(now: Time, f: Fetched) returns (ok: bool)
      modifies this
      ensures ok <==> f.Success?
      ensures Sees() == AfterPrime(old(Sees()), now, f)
      ensures f.Success? ==> keys == f.keys && lastFetch == Some(now) && inflight == old(inflight)
      ensures !f.Success? ==> keys == old(keys) && lastFetch == old(lastFetch) && inflight == old(inflight)
    {
      ok := f.Success?;
      if ok {
        keys := f.keys;
        lastFetch := Some(now);
      }
    }
  }

  // ----- Every interleaving --------------------------------------------------

  /** running is the refreshes whose goroutine has not finished; finished the
      clock readings at which fetches were stamped, begun those at which
      refreshes began. */
  datatype State = State(cache: Cache, clock: Time, running: nat, finished: seq<Time>, begun: seq<Time>)

  const INITIAL := State(Cache(map[], None, false), 0, 0, [], [])

  datatype Step =
    | Clock(now: Time)
    | Ask
    | Finish(f: Fetched)
    | Prime(f: Fetched)

  ghost predicate Next(s: State, step: Step, t: State, interval: Time) {
    match step
    case Clock(now) => t == s.(clock := now)
    case Ask =>
      var starts := AnswerTo(s.cache, s.clock, interval).Begun?;
      t == s.(cache := AfterAsking(s.cache, s.clock, interval),
              running := if starts then s.running + 1 else s.running,
              begun := if starts then s.begun + [s.clock] else s.begun)
    case Finish(f) =>
      && s.running > 0 && Plausible(f)
      && t == s.(cache := AfterRefresh(s.cache, s.clock, f), running := s.running - 1, finished := s.finished + [s.clock])
    case Prime(f) =>
      && Plausible(f)
      && t == s.(cache := AfterPrime(s.cache, s.clock, f),
                 finished := if f.Success? then s.finished + [s.clock] else s.finished)
  }

  ghost predicate IsRun(states: seq<State>, steps: seq<Step>, interval: Time) {
    && |states| == |steps| + 1 && states[0] == INITIAL
    && forall i {:trigger steps[i]} :: 0 <= i < |steps| ==> Next(states[i], steps[i], states[i + 1], interval)
  }

  predicate Steady(steps: seq<Step>, states: seq<State>)
    requires |states| == |steps| + 1
  {
    forall i {:trigger steps[i]} :: 0 <= i < |steps| ==> states[i].clock <= states[i + 1].clock
  }

  /** At most one refresh runs, and the cache knows whether one does. */
  lemma {:induction false} OneRefreshAtATime(states: seq<State>, steps: seq<Step>, interval: Time, i: nat)
    requires IsRun(states, steps, interval) && i <= |steps|
    ensures states[i].running == if states[i].cache.inflight then 1 else 0
  {
    if i > 0 {
      OneRefreshAtATime(states, steps, interval, i - 1);
      var step := steps[i - 1];
      assert Next(states[i - 1], step, states[i], interval);
    }
  }

  /** On a clock that never steps back, the stamp is the last finish, and every
      stamp is in the past. */
  lemma {:induction false} StampIsTheLastFinish(states: seq<State>, steps: seq<Step>, interval: Time, i: nat)
    requires IsRun(states, steps, interval) && Steady(steps, states) && i <= |steps|
    ensures var s := states[i];
            && s.cache.lastFetch == (if s.finished == [] then None else Some(s.finished[|s.finished| - 1]))
            && forall k :: 0 <= k < |s.finished| ==> s.finished[k] <= s.finished[|s.finished| - 1] <= s.clock
  {
    if i > 0 {
      StampIsTheLastFinish(states, steps, interval, i - 1);
      var step := steps[i - 1];
      assert Next(states[i - 1], step, states[i], interval) && states[i - 1].clock <= states[i].clock;
    }
  }

  /** And so a refresh begins no sooner than the interval after every fetch that
      finished before it. */
  lemma RefreshesAreSpaced(states: seq<State>, steps: seq<Step>, interval: Time, i: nat, k: nat)
    requires IsRun(states, steps, interval) && Steady(steps, states) && i < |steps|
    requires states[i + 1].begun != states[i].begun && k < |states[i].finished|
    ensures steps[i].Ask? && states[i + 1].begun == states[i].begun + [states[i].clock]
    ensures states[i].clock >= states[i].finished[k] + interval
  {
    StampIsTheLastFinish(states, steps, interval, i);
    var step := steps[i];
    assert Next(states[i], step, states[i + 1], interval);
  }

  /** Keys are replaced only by a fetch that succeeded, whatever the clock does. */
  lemma OnlySuccessReplacesKeys(s: State, step: Step, t: State, interval: Time)
    requires Next(s, step, t, interval)
    ensures t.cache.keys != s.cache.keys ==> (step.Finish? || step.Prime?) && step.f.Success? && t.cache.keys == step.f.keys
    ensures s.cache.keys != map[] ==> t.cache.keys != map[]
  {
  }

  /** A cache that holds a key never becomes empty again. */
  lemma {:induction false} NeverEmptiedAgain(states: seq<State>, steps: seq<Step>, interval: Time, i: nat, j: nat)
    requires IsRun(states, steps, interval) && i <= j <= |steps| && states[i].cache.keys != map[]
    ensures states[j].cache.keys != map[]
  {
    if i < j {
      NeverEmptiedAgain(states, steps, interval, i, j - 1);
      var step := steps[j - 1];
      OnlySuccessReplacesKeys(states[j - 1], step, states[j], interval);
    }
  }

  /** From the i-th step to the j-th nothing was fetched and nothing begun, and
      the clock did not step back. */
  ghost predicate Quiet(states: seq<State>, steps: seq<Step>, i: nat, j: nat)
    requires i <= j <= |steps| && |states| == |steps| + 1
  {
    && states[j].begun == states[i].begun && states[j].finished == states[i].finished
    && forall k :: i <= k < j ==> Onward(states, k)
  }

  predicate Onward(states: seq<State>, k: nat)
    requires k + 1 < |states|
  {
    states[k].clock <= states[k + 1].clock
  }

  lemma {:induction false} HistoriesGrow(states: seq<State>, steps: seq<Step>, interval: Time, i: nat, j: nat)
    requires IsRun(states, steps, interval) && i <= j <= |steps|
    ensures |states[i].begun| <= |states[j].begun| && |states[i].finished| <= |states[j].finished|
    ensures |states[i].begun| == |states[j].begun| ==> states[i].begun == states[j].begun
    ensures |states[i].finished| == |states[j].finished| ==> states[i].finished == states[j].finished
  {
    if i < j {
      HistoriesGrow(states, steps, interval, i, j - 1);
      var step := steps[j - 1];
      assert Next(states[j - 1], step, states[j], interval);
    }
  }

  lemma {:induction false} StampStaysBehind(states: seq<State>, steps: seq<Step>, interval: Time, i: nat, j: nat)
    requires IsRun(states, steps, interval) && i < j <= |steps| && Quiet(states, steps, i, j)
    requires steps[i].Ask? && AnswerTo(states[i].cache, states[i].clock, interval) == Declined
    ensures !states[j].cache.inflight && states[j].cache.lastFetch.Some?
    ensures states[j].cache.lastFetch.value <= states[i].clock <= states[j].clock
  {
    HistoriesGrow(states, steps, interval, i, j - 1);
    HistoriesGrow(states, steps, interval, j - 1, j);
    var step := steps[j - 1];
    assert Next(states[j - 1], step, states[j], interval);
    assert Onward(states, j - 1);
    if i < j - 1 {
      StampStaysBehind(states, steps, interval, i, j - 1);
    }
  }

  /** A clock that stepped backwards, however far, costs at most one interval: once
      a caller has been turned away, and unless a refresh has begun or a fetch
      finished meanwhile, the next to ask an interval later begins one. */
  lemma RefreshingResumes(states: seq<State>, steps: seq<Step>, interval: Time, i: nat, j: nat)
    requires IsRun(states, steps, interval) && i < j < |steps| && Quiet(states, steps, i, j)
    requires steps[i].Ask? && AnswerTo(states[i].cache, states[i].clock, interval) == Declined
    requires steps[j].Ask? && states[j].clock >= states[i].clock + interval
    ensures states[j + 1].begun == states[j].begun + [states[j].clock] && states[j + 1].cache.inflight
  {
    StampStaysBehind(states, steps, interval, i, j);
    var step := steps[j];
    assert Next(states[j], step, states[j + 1], interval);
  }
}
