/** What a token bucket does, as a sequence of timed events, and how much it can let through.
    Both bucket implementations produce traces of this kind. */
module BucketTrace {

  /** `next` is the earliest time of the next refill; times are in microseconds. */
  datatype Bucket = Bucket(capacity: real, tokens: real, period: int, next: int)

  datatype Event =
    | Refill(at: int)
    | Grant(at: int, amount: real)
    | Configure(at: int, capacity: real, tokens: real, period: int, raises: bool)

  ghost predicate WellFormed(b: Bucket) {
    0.0 <= b.tokens <= b.capacity && b.period > 0
  }

  /** What the bucket permits in a state.  A configuration that does not raise the level says so. */
  ghost predicate Enabled(b: Bucket, e: Event) {
    match e
    case Refill(at) => b.next <= at
    case Grant(_, amount) => 0.0 <= amount <= b.tokens
    case Configure(_, capacity, tokens, period, raises) =>
      0.0 <= tokens <= capacity && period > 0 && (raises || tokens <= b.tokens)
  }

  /** A refill fills the bucket to the top and puts the next one a period later. */
  ghost function Apply(b: Bucket, e: Event): Bucket {
    match e
    case Refill(at) => b.(tokens := b.capacity, next := at + b.period)
    case Grant(_, amount) => b.(tokens := b.tokens - amount)
    case Configure(_, capacity, tokens, period, _) =>
      b.(capacity := capacity, tokens := tokens, period := period)
  }

  ghost function Run(b: Bucket, trace: seq<Event>): Bucket
    decreases |trace|
  {
    if |trace| == 0 then b else Apply(Run(b, trace[..|trace| - 1]), trace[|trace| - 1])
  }

  /** The time of the last event, or of the start. */
  ghost function LastTime(start: int, trace: seq<Event>): int {
    if |trace| == 0 then start else trace[|trace| - 1].at
  }

  /** Events in time order, each permitted in the state it happens in. */
  ghost predicate Legal(b: Bucket, start: int, trace: seq<Event>)
    decreases |trace|
  {
    |trace| > 0 ==>
      var n := |trace| - 1;
      && Legal(b, start, trace[..n])
      && LastTime(start, trace[..n]) <= trace[n].at
      && Enabled(Run(b, trace[..n]), trace[n])
  }

  lemma {:induction false} RunWellFormed(b: Bucket, start: int, trace: seq<Event>)
    requires WellFormed(b) && Legal(b, start, trace)
    ensures WellFormed(Run(b, trace))
    decreases |trace|
  {
    if |trace| > 0 {
      RunWellFormed(b, start, trace[..|trace| - 1]);
    }
  }

  // ---------- counting ----------

  /** Tokens granted at times in [a, z]. */
  ghost function Granted(trace: seq<Event>, a: int, z: int): real
    decreases |trace|
  {
    if |trace| == 0 then 0.0
    else
      var n := |trace| - 1;
      Granted(trace[..n], a, z)
      + if trace[n].Grant? && a <= trace[n].at <= z then trace[n].amount else 0.0
  }

  ghost function Refills(trace: seq<Event>, a: int, z: int): nat
    decreases |trace|
  {
    if |trace| == 0 then 0
    else
      var n := |trace| - 1;
      Refills(trace[..n], a, z) + if trace[n].Refill? && a <= trace[n].at <= z then 1 else 0
  }

  /** Configurations in [a, z] that may raise the level. */
  ghost function Raises(trace: seq<Event>, a: int, z: int): nat
    decreases |trace|
  {
    if |trace| == 0 then 0
    else
      var n := |trace| - 1;
      Raises(trace[..n], a, z) + if trace[n].Configure? && trace[n].raises && a <= trace[n].at <= z then 1 else 0
  }

  /** All capacities are at most `c` and all periods at least `p`. */
  ghost predicate Within(b: Bucket, trace: seq<Event>, c: real, p: int) {
    && b.capacity <= c && p <= b.period
    && forall e | e in trace && e.Configure? :: e.capacity <= c && p <= e.period
  }

  // ---------- the rate bound ----------

  lemma {:induction false} RunWithin(b: Bucket, trace: seq<Event>, c: real, p: int)
    requires Within(b, trace, c, p)
    ensures Run(b, trace).capacity <= c && p <= Run(b, trace).period
    decreases |trace|
  {
    if |trace| > 0 {
      var n := |trace| - 1;
      assert trace[n] in trace;
      RunWithin(b, trace[..n], c, p);
    }
  }

  /** Refills are at least a period apart, so few of them fit in a window. */
  lemma {:induction false} RefillsApart(b: Bucket, start: int, trace: seq<Event>, a: int, z: int, c: real, p: int)
    requires WellFormed(b) && Legal(b, start, trace) && Within(b, trace, c, p) && p > 0 && a <= z
    ensures var r := Refills(trace, a, z);
      && (r > 0 && LastTime(start, trace) <= z ==> a + Periods(p, r) <= Run(b, trace).next)
      && (r > 0 ==> Periods(p, r) - p <= z - a)
    decreases |trace|
  {
    PeriodsStep(p, Refills(trace, a, z));
    hide Periods;
    if |trace| > 0 {
      var n := |trace| - 1;
      RefillsApart(b, start, trace[..n], a, z, c, p);
      RunWithin(b, trace[..n], c, p);
    }
  }

  /** The length of `r` periods. */
  ghost function Periods(p: int, r: nat): int { p * r }

  lemma PeriodsStep(p: int, r: nat)
    ensures Periods(p, 0) == 0 && (r > 0 ==> Periods(p, r) == Periods(p, r - 1) + p)
  {
    assert r > 0 ==> p * r == p * (r - 1) + p;
  }

  /** `n` times the amount `c`. */
  ghost function Times(c: real, n: nat): real { c * (n as real) }

  lemma TimesSteps(c: real, n: nat)
    ensures Times(c, 1) == c && Times(c, n + 1) == Times(c, n) + c
  {
    assert (n + 1) as real == n as real + 1.0;
  }

  lemma TimesMonotone(c: real, m: nat, n: nat)
    requires c >= 0.0 && m <= n
    ensures Times(c, m) <= Times(c, n)
  {}

  /** What was let through is covered by the starting level, the refills and the raises. */
  lemma {:induction false} GrantsCovered(b: Bucket, start: int, trace: seq<Event>, a: int, z: int, c: real, p: int)
    requires WellFormed(b) && Legal(b, start, trace) && Within(b, trace, c, p) && p > 0 && a <= z
    ensures var fills := 1 + Refills(trace, a, z) + Raises(trace, a, z);
      && Granted(trace, a, z) <= Times(c, fills)
      && (LastTime(start, trace) <= z ==> Granted(trace, a, z) + Run(b, trace).tokens <= Times(c, fills))
    decreases |trace|
  {
    TimesSteps(c, 1 + Refills(trace, a, z) + Raises(trace, a, z));
    hide Times;
    if |trace| > 0 {
      var n := |trace| - 1;
      GrantsCovered(b, start, trace[..n], a, z, c, p);
      RunWithin(b, trace[..n], c, p);
      RunWithin(b, trace, c, p);
      RunWellFormed(b, start, trace[..n]);
      RunWellFormed(b, start, trace);
      TimesSteps(c, 1 + Refills(trace[..n], a, z) + Raises(trace[..n], a, z));
      if trace[n].at < a {
        NothingBefore(b, start, trace, a, z);
      }
    }
  }

  lemma {:induction false} NothingBefore(b: Bucket, start: int, trace: seq<Event>, a: int, z: int)
    requires Legal(b, start, trace) && LastTime(start, trace) < a
    ensures Granted(trace, a, z) == 0.0 && Refills(trace, a, z) == 0 && Raises(trace, a, z) == 0
    decreases |trace|
  {
    if |trace| > 1 {
      NothingBefore(b, start, trace[..|trace| - 1], a, z);
    }
  }

  lemma QuotientBound(p: int, q: nat, w: nat)
    requires p > 0 && p * q <= w
    ensures q <= w / p
  {
    var d := q - w / p;
    assert p * q == p * (w / p) + p * d;
    assert d > 0 ==> p <= p * d;
  }

  /** Over every run, a window of length `w` lets through at most the capacity times
      floor(w / period) + 2, plus once the capacity for every configuration that raised the level. */
  lemma RateBound(b: Bucket, start: int, trace: seq<Event>, a: int, w: nat, c: real, p: int)
    requires WellFormed(b) && Legal(b, start, trace) && Within(b, trace, c, p) && p > 0
    ensures Granted(trace, a, a + w) <= Times(c, w / p + 2 + Raises(trace, a, a + w))
  {
    hide Times, Granted, Refills, Raises, Legal;
    var r := Refills(trace, a, a + w);
    RefillsApart(b, start, trace, a, a + w, c, p);
    GrantsCovered(b, start, trace, a, a + w, c, p);
    if r > 0 {
      PeriodsStep(p, r);
      QuotientBound(p, r - 1, w);
    }
    TimesMonotone(c, 1 + r + Raises(trace, a, a + w), w / p + 2 + Raises(trace, a, a + w));
  }

  /** Configurations that do not raise the level do not count. */
  lemma {:induction false} NoRaises(trace: seq<Event>, a: int, z: int)
    requires forall e | e in trace :: e.Configure? ==> !e.raises
    ensures Raises(trace, a, z) == 0
    decreases |trace|
  {
    if |trace| > 0 {
      NoRaises(trace[..|trace| - 1], a, z);
    }
  }

  // ---------- the bound is tight ----------

  /** Spend a full bucket, then refill and spend it again every period, `k` times. */
  ghost function Burst(c: real, p: int, a: int, k: nat): seq<Event> {
    if k == 0 then [Grant(a, c)]
    else Burst(c, p, a, k - 1) + [Refill(a + Periods(p, k - 1)), Grant(a + Periods(p, k - 1), c)]
  }

  lemma OneMore(b: Bucket, start: int, trace: seq<Event>, e: Event, a: int, z: int)
    ensures var t := trace + [e];
      && Run(b, t) == Apply(Run(b, trace), e)
      && LastTime(start, t) == e.at
      && (Legal(b, start, trace) && LastTime(start, trace) <= e.at && Enabled(Run(b, trace), e) ==> Legal(b, start, t))
      && Granted(t, a, z) == Granted(trace, a, z) + (if e.Grant? && a <= e.at <= z then e.amount else 0.0)
      && (!e.Configure? ==> Raises(t, a, z) == Raises(trace, a, z))
  {
    assert (trace + [e])[..|trace|] == trace;
  }

  lemma Nothing(b: Bucket, start: int, z: int)
    ensures Legal(b, start, []) && Run(b, []) == b && Granted([], start, z) == 0.0 && Raises([], start, z) == 0
  {}

  lemma {:induction false} BurstLegal(c: real, p: int, a: int, k: nat, z: int)
    requires c >= 0.0 && p > 0 && a <= z
    requires k > 0 ==> a + Periods(p, k - 1) <= z
    ensures var b, t := Bucket(c, c, p, a), Burst(c, p, a, k);
      && Legal(b, a, t)
      && Run(b, t) == Bucket(c, 0.0, p, a + Periods(p, k))
      && LastTime(a, t) <= a + Periods(p, k) && LastTime(a, t) <= z
      && (k > 0 ==> LastTime(a, t) <= a + Periods(p, k - 1))
      && Granted(t, a, z) == Times(c, k + 1)
      && Raises(t, a, z) == 0
  {
    var b := Bucket(c, c, p, a);
    TimesSteps(c, k);
    PeriodsStep(p, k);
    assert k > 0 ==> Periods(p, k - 1) >= 0;
    if k > 1 { PeriodsStep(p, k - 1); }
    hide Legal, Run, Granted, Raises, Times, Periods;
    if k == 0 {
      Nothing(b, a, z);
      OneMore(b, a, [], Grant(a, c), a, z);
      assert [] + [Grant(a, c)] == [Grant(a, c)];
    } else {
      var at := a + Periods(p, k - 1);
      BurstLegal(c, p, a, k - 1, z);
      assert a <= at;
      var t0 := Burst(c, p, a, k - 1);
      OneMore(b, a, t0, Refill(at), a, z);
      OneMore(b, a, t0 + [Refill(at)], Grant(at, c), a, z);
      assert Burst(c, p, a, k) == t0 + [Refill(at)] + [Grant(at, c)];
    }
  }

  /** For every capacity, period and window there is a run that reaches the bound. */
  lemma BoundReached(c: real, p: int, a: int, w: nat)
    requires c >= 0.0 && p > 0
    ensures var b, t := Bucket(c, c, p, a), Burst(c, p, a, w / p + 1);
      && WellFormed(b) && Legal(b, a, t) && Raises(t, a, a + w) == 0
      && Granted(t, a, a + w) == Times(c, w / p + 2)
  {
    BurstLegal(c, p, a, w / p + 1, a + w);
  }
}
