/**
 The two retry schedules: the one parked operations wait on
 (internal/app/backoff.go) and the one the worker loops wait on
 (internal/workers/backoff.go). Delays are computed over reals, so rounding to
 the nearest float64 is not represented; truncation to whole nanoseconds is.
 */
module Backoff {
  import opened Prelude

  const SECOND: Time := 1_000_000_000

  /** A factor as configuration can deliver it. */
  datatype Float = NaN | PosInf | Finite(value: real)

  datatype Policy = Policy(initial: Time, factor: Float, max: Time)

  /** Both validate functions: what a constructor accepts. */
  predicate Valid(p: Policy) {
    && p.initial > 0
    && !p.factor.NaN?
    && (p.factor.Finite? ==> p.factor.value >= 1.0)
    && p.max >= p.initial
  }

  function Pow(x: real, n: nat): real {
    if n == 0 then 1.0 else x * Pow(x, n - 1)
  }

  /** The exponential delay capped at max, before any jitter. */
  function Capped(p: Policy, attempt: int): real
    requires Valid(p)
  {
    var n: nat := Max(attempt, 1) - 1;
    if p.factor.PosInf? then
      (if n == 0 then p.initial as real else p.max as real)
    else
      var delay := p.initial as real * Pow(p.factor.value, n);
      if delay >= p.max as real then p.max as real else delay
  }

  /** workers.Backoff.after */
  function After(p: Policy, attempt: int): Time
    requires Valid(p)
  {
    Capped(p, attempt).Floor
  }

  /** workers.wholeSeconds */
  function WholeSeconds(d: Time): (r: Time)
    ensures r % SECOND == 0 && r >= SECOND
    ensures d <= r
    ensures d > SECOND ==> r < d + SECOND
  {
    if d <= SECOND then SECOND else (d + SECOND - 1) / SECOND * SECOND
  }

  /** A fraction in [0, 1) read out of the low eight bytes of an identifier. */
  function JitterOf(id: nat): (j: real)
    ensures 0.0 <= j < 1.0
  {
    ((id % 0x1_0000_0000_0000_0000) % 1_000_000) as real / 1_000_000.0
  }

  /** The capped delay spread by up to a tenth. */
  function Jittered(p: Policy, attempts: int, id: nat): Time
    requires Valid(p)
  {
    Spread(Capped(p, attempts), JitterOf(id))
  }

  function Spread(delay: real, jitter: real): Time {
    (delay * (1.0 + 0.1 * jitter)).Floor
  }

  /** app.BackoffPolicy.next: when a parked operation is looked at again. */
  function Next(p: Policy, attempts: int, now: Time, deadline: Option<Time>, id: nat): Time
    requires Valid(p)
  {
    var at := now + Jittered(p, attempts, id);
    if deadline.Some? && at > deadline.value then deadline.value else at
  }

  lemma {:induction false} PowGrows(x: real, n: nat)
    requires x >= 1.0
    ensures 1.0 <= Pow(x, n) <= Pow(x, n + 1)
  {
    if n > 0 {
      PowGrows(x, n - 1);
    }
    var here := Pow(x, n);
    assert here >= 1.0;
    assert (x - 1.0) * here >= 0.0;
    assert Pow(x, n + 1) == x * here;
  }

  lemma {:induction false} PowMonotone(x: real, n: nat, m: nat)
    requires x >= 1.0 && n <= m
    ensures 1.0 <= Pow(x, n) <= Pow(x, m)
    decreases m
  {
    PowGrows(x, n);
    if n < m {
      PowMonotone(x, n, m - 1);
      PowGrows(x, m - 1);
    }
  }

  lemma CappedBounds(p: Policy, attempt: int)
    requires Valid(p)
    ensures p.initial as real <= Capped(p, attempt) <= p.max as real
  {
    if p.factor.Finite? {
      var n: nat := Max(attempt, 1) - 1;
      PowGrows(p.factor.value, n);
      Scale(p.initial as real, 1.0, Pow(p.factor.value, n));
    }
  }

  lemma Scale(a: real, b: real, c: real)
    requires a >= 0.0 && b <= c
    ensures a * b <= a * c
  {
    assert a * (c - b) >= 0.0;
  }

  /** Every wait of a valid policy lies between its initial and its maximum, and
      a later attempt never waits less than an earlier one. */
  lemma AfterIsBoundedAndMonotone(p: Policy, a: int, b: int)
    requires Valid(p) && a <= b
    ensures p.initial <= After(p, a) <= After(p, b) <= p.max
  {
    CappedBounds(p, a);
    CappedBounds(p, b);
    assert Capped(p, a) <= Capped(p, b) by {
      if p.factor.Finite? {
        var n: nat, m: nat := Max(a, 1) - 1, Max(b, 1) - 1;
        PowMonotone(p.factor.value, n, m);
        Scale(p.initial as real, Pow(p.factor.value, n), Pow(p.factor.value, m));
      }
    }
  }

  lemma JitteredBounds(p: Policy, attempts: int, id: nat)
    requires Valid(p)
    ensures p.initial <= Jittered(p, attempts, id)
    ensures 10 * Jittered(p, attempts, id) <= 11 * p.max
  {
    CappedBounds(p, attempts);
    SpreadByATenth(Capped(p, attempts), JitterOf(id), p.initial, p.max);
  }

  lemma SpreadByATenth(c: real, jitter: real, low: int, high: int)
    requires 0 <= low && low as real <= c <= high as real && 0.0 <= jitter < 1.0
    ensures low <= Spread(c, jitter) && 10 * Spread(c, jitter) <= 11 * high
  {
    SpreadReal(c, jitter);
    FloorBetween(c, c * (1.0 + 0.1 * jitter), low, high);
  }

  lemma SpreadReal(c: real, jitter: real)
    requires 0.0 <= c && 0.0 <= jitter < 1.0
    ensures c <= c * (1.0 + 0.1 * jitter) <= c * 1.1
  {
    Scale(c, 1.0, 1.0 + 0.1 * jitter);
    Scale(c, 1.0 + 0.1 * jitter, 1.1);
  }

  lemma FloorBetween(c: real, x: real, low: int, high: int)
    requires low as real <= c <= high as real
    requires c <= x <= c * 1.1
    ensures low <= x.Floor && 10 * x.Floor <= 11 * high
  {
    assert x.Floor as real <= x;
    assert (10 * x.Floor) as real == 10.0 * (x.Floor as real);
    assert (11 * high) as real == 11.0 * (high as real);
  }

  /** The schedule is in the future and never past the deadline; unclamped it is
      at least the initial delay away and at most a tenth beyond the maximum. */
  lemma NextIsClamped(p: Policy, attempts: int, now: Time, deadline: Option<Time>, id: nat)
    requires Valid(p)
    ensures var at := Next(p, attempts, now, deadline, id);
            && (deadline.Some? ==> at <= deadline.value)
            && (now + p.initial <= at || deadline == Some(at))
            && (deadline.Some? && deadline.value > now ==> at > now)
            && (deadline != Some(at) ==> 10 * (at - now) <= 11 * p.max)
  {
    JitteredBounds(p, attempts, id);
  }

  // ----- How waits grow ------------------------------------------------------

  function Times(x: real, y: real): real {
    x * y
  }

  function Cut(delay: real, max: real): real {
    if delay >= max then max else delay
  }

  /** The first wait is the initial one, and each later one is the one before it
      times the factor, cut at the maximum; an infinite factor goes there at once. */
  lemma WaitsGrowByTheFactor(p: Policy, a: int)
    requires Valid(p)
    ensures a <= 1 ==> Capped(p, a) == p.initial as real
    ensures a >= 1 && p.factor.Finite? ==> Capped(p, a + 1) == Cut(Times(p.factor.value, Capped(p, a)), p.max as real)
    ensures a >= 2 && p.factor.PosInf? ==> Capped(p, a) == p.max as real
    ensures After(p, a) as real <= Capped(p, a) < (After(p, a) + 1) as real
  {
    hide Capped, Cut, Pow, Times;
    if a <= 1 {
      FirstWait(p, a);
    }
    if a >= 1 && p.factor.Finite? {
      GrowsOnce(p, a, Capped(p, a));
    }
    InfiniteWait(p, a);
  }

  lemma GrowsOnce(p: Policy, a: int, c: real)
    requires Valid(p) && p.factor.Finite? && a >= 1 && c == Capped(p, a)
    ensures Capped(p, a + 1) == Cut(Times(p.factor.value, c), p.max as real)
  {
    hide Capped, Cut, Pow, Times, Uncut;
    var x, d, more := p.factor.value, Uncut(p, a), Uncut(p, a + 1);
    CappedIsCut(p, a);
    CappedIsCut(p, a + 1);
    UncutStep(p, a);
    CutStep(d, x, p.max as real, c);
  }

  /** The delay before it is cut. */
  function Uncut(p: Policy, a: int): real
    requires p.factor.Finite? && a >= 1
  {
    p.initial as real * Pow(p.factor.value, a - 1)
  }

  lemma UncutStep(p: Policy, a: int)
    requires p.factor.Finite? && a >= 1
    ensures Uncut(p, a + 1) == Times(p.factor.value, Uncut(p, a))
  {
    PowStep(p.factor.value, a - 1);
    Commutes(p.initial as real, p.factor.value, Pow(p.factor.value, a - 1));
  }

  lemma Commutes(a: real, x: real, y: real)
    ensures a * (x * y) == x * (a * y)
  {
  }

  lemma FirstWait(p: Policy, a: int)
    requires Valid(p) && a <= 1
    ensures Capped(p, a) == p.initial as real
  {
    assert Max(a, 1) - 1 == 0;
  }

  lemma InfiniteWait(p: Policy, a: int)
    requires Valid(p)
    ensures a >= 2 && p.factor.PosInf? ==> Capped(p, a) == p.max as real
  {
  }

  lemma PowStep(x: real, n: nat)
    ensures Pow(x, n + 1) == x * Pow(x, n)
  {
  }

  lemma CappedIsCut(p: Policy, a: int)
    requires Valid(p) && p.factor.Finite? && a >= 1
    ensures Capped(p, a) == Cut(Uncut(p, a), p.max as real)
  {
    assert Max(a, 1) - 1 == a - 1;
  }

  /** Cutting before the factor or after it comes to the same. */
  lemma CutStep(d: real, x: real, max: real, c: real)
    requires x >= 1.0 && max >= 0.0 && c == Cut(d, max)
    ensures Cut(Times(x, d), max) == Cut(Times(x, c), max)
  {
    if d >= max {
      Scale(max, 1.0, x);
      Scale(x, max, d);
    }
  }

  lemma AfterOfWhole(p: Policy, a: int, n: int)
    requires Valid(p) && Capped(p, a) == n as real
    ensures After(p, a) == n
  {
    hide Capped;
  }

  function WholeWait(k: int, n: int, max: int): int {
    if k * n >= max then max else k * n
  }

  lemma WholeNext(p: Policy, k: nat, a: nat, n: int)
    requires Valid(p) && p.factor == Finite(k as real) && a >= 1 && Capped(p, a) == n as real
    ensures Capped(p, a + 1) == WholeWait(k, n, p.max) as real
  {
    hide Capped, Cut, WholeWait, Times;
    GrowsOnce(p, a, n as real);
    WholeCut(k, n, p.max);
  }

  /** For a whole factor the waits are whole too, and grow by exactly it. */
  lemma {:induction false} WholeFactorsAreExact(p: Policy, k: nat, a: nat)
    requires Valid(p) && p.factor == Finite(k as real) && a >= 1
    ensures After(p, a) as real == Capped(p, a)
    ensures After(p, a + 1) == if k * After(p, a) >= p.max then p.max else k * After(p, a)
  {
    hide Capped, After;
    if a == 1 {
      WaitsGrowByTheFactor(p, 1);
      AfterOfWhole(p, 1, p.initial);
    } else {
      WholeFactorsAreExact(p, k, a - 1);
      WholeNext(p, k, a - 1, After(p, a - 1));
      AfterOfWhole(p, a, WholeWait(k, After(p, a - 1), p.max));
    }
    WholeNext(p, k, a, After(p, a));
    AfterOfWhole(p, a + 1, WholeWait(k, After(p, a), p.max));
  }

  lemma WholeCut(k: int, n: int, max: int)
    ensures Cut(Times(k as real, n as real), max as real) == WholeWait(k, n, max) as real
  {
    assert (k * n) as real == k as real * n as real;
  }

  /** A parked operation's next try: its attempt's wait away, spread by up to a
      tenth, or the deadline where that comes first. */
  lemma NextWaitsItsTurn(p: Policy, attempts: int, now: Time, deadline: Option<Time>, id: nat)
    requires Valid(p)
    ensures var wait := Jittered(p, attempts, id);
            && After(p, attempts) <= wait && 10 * wait < 11 * (After(p, attempts) + 1)
            && Next(p, attempts, now, deadline, id)
               == if deadline.Some? && deadline.value < now + wait then deadline.value else now + wait
  {
    hide Capped, Spread, JitterOf;
    CappedBounds(p, attempts);
    SpreadOfWait(Capped(p, attempts), JitterOf(id));
  }

  /** A try that is neither early nor late: no later than the deadline, at most a
      tenth and a nanosecond beyond the attempt's wait, and at least that wait away
      unless the deadline comes first. */
  predicate OnTime(p: Policy, attempts: int, now: Time, deadline: Option<Time>, next: Option<Time>)
    requires Valid(p)
  {
    && next.Some? && 10 * (next.value - now) < 11 * (After(p, attempts) + 1)
    && (deadline.Some? ==> next.value <= deadline.value)
    && (now + After(p, attempts) <= next.value || next == deadline)
  }

  lemma NextIsOnTime(p: Policy, attempts: int, now: Time, deadline: Option<Time>, id: nat)
    requires Valid(p)
    ensures OnTime(p, attempts, now, deadline, Some(Next(p, attempts, now, deadline, id)))
  {
    hide After, Jittered;
    NextWaitsItsTurn(p, attempts, now, deadline, id);
  }

  lemma SpreadOfWait(c: real, j: real)
    requires 0.0 <= c && 0.0 <= j < 1.0
    ensures c.Floor <= Spread(c, j) && 10 * Spread(c, j) < 11 * (c.Floor + 1)
  {
    SpreadReal(c, j);
    SpreadOfAfter(c, c * (1.0 + 0.1 * j));
  }

  lemma SpreadOfAfter(c: real, x: real)
    requires c <= x <= c * 1.1
    ensures c.Floor <= x.Floor && 10 * x.Floor < 11 * (c.Floor + 1)
  {
    assert x.Floor as real <= x && c < (c.Floor + 1) as real;
    assert (10 * x.Floor) as real == 10.0 * (x.Floor as real);
    assert (11 * (c.Floor + 1)) as real == 11.0 * ((c.Floor + 1) as real);
  }

  /** The spread is the identifier's fraction of a tenth of the wait, and nothing is
      dropped but a fraction of a nanosecond. */
  lemma TheSpreadIsTheIdentifiers(p: Policy, attempts: int, id: nat)
    requires Valid(p)
    ensures var c := Capped(p, attempts);
            Jittered(p, attempts, id) as real <= c * (1.0 + 0.1 * JitterOf(id)) < (Jittered(p, attempts, id) + 1) as real
  {
    hide Capped, JitterOf;
  }

  /** Two operations are spread alike only when their identifiers agree in what
      the spread is read from. */
  lemma JitterTellsIdentifiersApart(a: nat, b: nat)
    ensures JitterOf(a) == JitterOf(b) <==>
              (a % 0x1_0000_0000_0000_0000) % 1_000_000 == (b % 0x1_0000_0000_0000_0000) % 1_000_000
  {
  }
}
