/** The lazily refilled token bucket: it reads the clock only when it runs short. */
module TokenBuckets {
  import opened BucketTrace

  // ---------- whole-trace counts ----------

  /** All tokens granted, and the number of grants and of refills. */
  ghost function Total(trace: seq<Event>): real
    decreases |trace|
  {
    if |trace| == 0 then 0.0
    else Total(trace[..|trace| - 1]) + if trace[|trace| - 1].Grant? then trace[|trace| - 1].amount else 0.0
  }

  ghost function Grants(trace: seq<Event>): nat
    decreases |trace|
  {
    if |trace| == 0 then 0
    else Grants(trace[..|trace| - 1]) + if trace[|trace| - 1].Grant? then 1 else 0
  }

  ghost function RefillCount(trace: seq<Event>): nat
    decreases |trace|
  {
    if |trace| == 0 then 0
    else RefillCount(trace[..|trace| - 1]) + if trace[|trace| - 1].Refill? then 1 else 0
  }

  lemma Appended(b: Bucket, start: int, trace: seq<Event>, e: Event)
    ensures var t := trace + [e];
      && Run(b, t) == Apply(Run(b, trace), e)
      && LastTime(start, t) == e.at
      && (Legal(b, start, trace) && LastTime(start, trace) <= e.at && Enabled(Run(b, trace), e) ==> Legal(b, start, t))
      && Total(t) == Total(trace) + (if e.Grant? then e.amount else 0.0)
      && Grants(t) == Grants(trace) + (if e.Grant? then 1 else 0)
      && RefillCount(t) == RefillCount(trace) + (if e.Refill? then 1 else 0)
  {
    assert (trace + [e])[..|trace|] == trace;
  }

  // ---------- chunks ----------

  /** The number of chunks of at most `capacity` that make up `n`: n / capacity rounded up. */
  function Chunks(n: real, capacity: real): (k: nat)
    requires n > 0.0 && capacity > 0.0
    ensures k > 0 && Times(capacity, k - 1) < n <= Times(capacity, k)
  {
    var q := n / capacity;
    var k := if q == q.Floor as real then q.Floor else q.Floor + 1;
    QuotientPositive(n, capacity);
    Scaled(capacity, q, n, k);
    k
  }

  lemma QuotientPositive(n: real, c: real)
    requires n > 0.0 && c > 0.0
    ensures n / c > 0.0 && c * (n / c) == n
  {}

  lemma Scaled(c: real, q: real, n: real, k: nat)
    requires c > 0.0 && c * q == n && k > 0
    requires (k - 1) as real < q <= k as real
    ensures Times(c, k - 1) < n <= Times(c, k)
  {
    ProductLess(c, (k - 1) as real, q);
    if q < k as real { ProductLess(c, q, k as real); }
  }

  lemma ProductLess(c: real, x: real, y: real)
    requires c > 0.0 && x < y
    ensures c * x < c * y
  {}

  /** The rounding is unique. */
  lemma ChunksUnique(n: real, capacity: real, k: nat)
    requires n > 0.0 && capacity > 0.0
    requires k > 0 && Times(capacity, k - 1) < n <= Times(capacity, k)
    ensures k == Chunks(n, capacity)
  {
    hide Times;
    var c := Chunks(n, capacity);
    if k < c {
      TimesMonotone(capacity, k, c - 1);
    } else if c < k {
      TimesMonotone(capacity, c, k - 1);
    }
  }

  // ---------- the clock ----------

  ghost predicate Passes(clock: nat -> int, t: int) {
    exists i: nat :: t <= clock(i)
  }

  /** Time never goes back and passes every moment. */
  ghost predicate Ticking(clock: nat -> int) {
    && (forall i: nat, j: nat :: i <= j ==> clock(i) <= clock(j))
    && (forall t: int :: Passes(clock, t))
  }

  lemma TimeAdvances(clock: nat -> int, i: nat, j: nat)
    requires Ticking(clock) && i <= j
    ensures clock(i) <= clock(j)
  {}

  lemma TimeReaches(clock: nat -> int, t: int, i: nat) returns (goal: nat)
    requires Ticking(clock)
    ensures t <= clock(goal) && i <= goal
  {
    assert Passes(clock, t);
    goal :| t <= clock(goal);
    if goal < i {
      TimeAdvances(clock, goal, i);
      goal := i;
    }
  }

  // ---------- the bucket ----------

  class TokenBucket {
    var capacity: real
    var tokens: real
    var refillPeriod: int
    var nextRefill: int

    /** `clock(i)` is the time at the i-th instant of the run; `tick` instants have passed. */
    const clock: nat -> int
    var tick: nat

    /** Everything that happened since construction. */
    ghost var trace: seq<Event>
    ghost const origin: Bucket
    ghost const start: int

    ghost function State(): Bucket
      reads this
    {
      Bucket(capacity, tokens, refillPeriod, nextRefill)
    }

    ghost predicate Valid()
      reads this
    {
      && Ticking(clock)
      && WellFormed(origin)
      && Legal(origin, start, trace)
      && Run(origin, trace) == State()
      && WellFormed(State())
      && LastTime(start, trace) <= clock(tick)
    }

    constructor (capacity: real, tokens: real, refillPeriod: int, clock: nat -> int, tick: nat)
      requires 0.0 <= tokens <= capacity && refillPeriod > 0 && Ticking(clock)
      ensures Valid() && trace == [] && this.clock == clock
      ensures State() == Bucket(capacity, tokens, refillPeriod, clock(tick) + refillPeriod)
    {
      this.capacity, this.tokens, this.refillPeriod := capacity, tokens, refillPeriod;
      this.clock, this.tick := clock, tick;
      nextRefill := clock(tick) + refillPeriod;
      trace := [];
      start := clock(tick);
      origin := Bucket(capacity, tokens, refillPeriod, clock(tick) + refillPeriod);
    }

    /** Every window of every run obeys the bound; without reconfiguration it is the plain one. */
    lemma RateBounded(a: int, w: nat, c: real, p: int)
      requires Valid() && Within(origin, trace, c, p) && p > 0
      ensures Granted(trace, a, a + w) <= Times(c, w / p + 2 + Raises(trace, a, a + w))
      ensures (forall e | e in trace && e.Configure? :: !e.raises) ==>
        Granted(trace, a, a + w) <= Times(c, w / p + 2)
    {
      RateBound(origin, start, trace, a, w, c, p);
      if forall e | e in trace && e.Configure? :: !e.raises {
        NoRaises(trace, a, a + w);
      }
    }

    method IsTimeToRefill() returns (timeLeft: int)
      modifies this`tick, this`nextRefill
      ensures tick == old(tick) + 1
      ensures timeLeft == old(nextRefill) - clock(old(tick))
      ensures nextRefill == if timeLeft <= 0 then clock(old(tick)) + refillPeriod else old(nextRefill)
    {
      var currentTime := clock(tick);
      tick := tick + 1;
      timeLeft := nextRefill - currentTime;
      if timeLeft <= 0 {
        nextRefill := currentTime + refillPeriod;
      }
    }

    method RefillOperation()
      modifies this`tokens
      ensures tokens == capacity
    {
      tokens := capacity;
    }

    /** Refills exactly when the period has elapsed. */
    method TryRefill() returns (timeLeft: int)
      requires Valid()
      modifies this`tick, this`nextRefill, this`tokens, this`trace
      ensures Valid() && tick == old(tick) + 1
      ensures timeLeft == old(nextRefill) - clock(old(tick))
      ensures timeLeft > 0 ==> State() == old(State()) && trace == old(trace)
      ensures timeLeft <= 0 ==> tokens == capacity && trace == old(trace) + [Refill(clock(old(tick)))]
    {
      hide Ticking, Legal, Run;
      timeLeft := IsTimeToRefill();
      TimeAdvances(clock, old(tick), tick);
      if timeLeft <= 0 {
        RefillOperation();
        Appended(origin, start, trace, Refill(clock(old(tick))));
        trace := trace + [Refill(clock(old(tick)))];
      }
    }

    /** Takes tokens that are there. */
    method Take(n: real)
      requires Valid() && 0.0 <= n <= tokens
      modifies this`tick, this`tokens, this`trace
      ensures Valid() && tick == old(tick) + 1 && tokens == old(tokens) - n
      ensures trace == old(trace) + [Grant(clock(old(tick)), n)]
    {
      hide Ticking, Legal, Run;
      tokens := tokens - n;
      Appended(origin, start, trace, Grant(clock(tick), n));
      trace := trace + [Grant(clock(tick), n)];
      TimeAdvances(clock, tick, tick + 1);
      tick := tick + 1;
    }

    /** Takes `n` tokens; refills once, when the period has elapsed, if there are too few. */
    method ConsumeOperation(n: real)
      requires Valid() && 0.0 <= n <= capacity
      modifies this`tick, this`nextRefill, this`tokens, this`trace
      ensures Valid() && tick > old(tick)
      ensures tokens == (if n <= old(tokens) then old(tokens) else capacity) - n
      ensures OneChunk(old(trace), trace, n, n > old(tokens))
    {
      hide Ticking, Legal, Run;
      ghost var goal := TimeReaches(clock, nextRefill, tick);
      while n > tokens
        invariant Valid() && tick >= old(tick)
        invariant n > tokens ==> trace == old(trace) && State() == old(State()) && tick <= goal
        invariant n <= old(tokens) ==> trace == old(trace) && tokens == old(tokens)
        invariant n > old(tokens) && n <= tokens ==> tokens == capacity && OneRefill(old(trace), trace)
        decreases goal - tick
      {
        if tick == goal { TimeAdvances(clock, goal, tick); }
        var timeLeft := TryRefill();
        // with time left the code sleeps for a hundredth of the period and looks again
      }
      Take(n);
    }

    /** Takes exactly `n` tokens, in chunks no larger than the capacity.  The number of chunks is
        n / capacity rounded up; each costs one refill, except a first one that fits the level. */
    method TryConsume(n: real)
      requires Valid() && n >= 0.0 && (n > 0.0 ==> capacity > 0.0)
      modifies this`tick, this`nextRefill, this`tokens, this`trace
      ensures Valid() && old(trace) <= trace
      ensures Total(trace) == Total(old(trace)) + n
      ensures ChunksWithin(old(trace), trace, capacity, n > 0.0)
      ensures n > 0.0 ==> Grants(trace) == Grants(old(trace)) + Chunks(n, capacity)
      ensures n > 0.0 ==>
        RefillCount(trace) + Saved(n, capacity, old(tokens)) == RefillCount(old(trace)) + Chunks(n, capacity)
      ensures n > capacity ==> tokens == Times(capacity, Chunks(n, capacity)) - n
      ensures n <= capacity ==> tokens == (if n <= old(tokens) then old(tokens) else capacity) - n
    {
      hide Ticking, Legal, Run, Times, Total, Grants, RefillCount, ChunksWithin;
      ChunksStart(trace, capacity, n > 0.0);
      if n > capacity {
        var tokensLeft := n;
        var iterationTokens := capacity;
        ghost var k: nat := 0;
        ghost var saved := Saved(n, capacity, tokens);
        TimesZero(capacity);
        while tokensLeft > 0.0
          invariant Valid() && old(trace) <= trace
          invariant tokensLeft >= 0.0 && Total(trace) == Total(old(trace)) + n - tokensLeft
          invariant tokensLeft > 0.0 ==>
            && iterationTokens == (if tokensLeft < capacity then tokensLeft else capacity)
            && n - tokensLeft == Times(capacity, k)
          invariant tokensLeft == 0.0 ==> k > 0 && Times(capacity, k - 1) < n <= Times(capacity, k)
          invariant tokensLeft == 0.0 ==> tokens == Times(capacity, k) - n
          invariant Grants(trace) == Grants(old(trace)) + k
          invariant k == 0 ==> tokensLeft == n && tokens == old(tokens) && trace == old(trace)
          invariant k > 0 ==> RefillCount(trace) + saved == RefillCount(old(trace)) + k
          invariant k > 0 && tokensLeft > 0.0 ==> tokens == 0.0
          invariant ChunksWithin(old(trace), trace, capacity, true)
          decreases Chunks(n, capacity) - k
        {
          ChunksLeft(n, capacity, k, tokensLeft);
          ghost var before := trace;
          ghost var refilled := iterationTokens > tokens;
          ConsumeOperation(iterationTokens);
          CountStep(before, trace, iterationTokens, refilled);
          ChunksGrow(old(trace), before, trace, iterationTokens, refilled, capacity, true);
          k := k + 1;
          tokensLeft := tokensLeft - iterationTokens;
          if tokensLeft < capacity {
            iterationTokens := tokensLeft;
          }
        }
        ChunksUnique(n, capacity, k);
      } else {
        ghost var before := trace;
        ghost var refilled := n > tokens;
        ConsumeOperation(n);
        CountStep(before, trace, n, refilled);
        ChunksGrow(before, before, trace, n, refilled, capacity, n > 0.0);
        TimesZero(capacity);
        if n > 0.0 { ChunksUnique(n, capacity, 1); }
      }
    }

    // ---------- configuration ----------

    /** Records in the history that the settings changed from `before` to what they are. */
    method LogConfiguration(ghost before: Bucket, ghost raises: bool)
      requires Ticking(clock) && WellFormed(origin) && Legal(origin, start, trace)
      requires Run(origin, trace) == before && LastTime(start, trace) <= clock(tick)
      requires WellFormed(State()) && nextRefill == before.next
      requires raises || tokens <= before.tokens
      modifies this`tick, this`trace
      ensures Valid()
      ensures trace == old(trace) + [Configure(clock(old(tick)), capacity, tokens, refillPeriod, raises)]
    {
      hide Ticking, Legal, Run;
      var e := Configure(clock(tick), capacity, tokens, refillPeriod, raises);
      Appended(origin, start, trace, e);
      trace := trace + [e];
      TimeAdvances(clock, tick, tick + 1);
      tick := tick + 1;
    }

    function NormalizeTokens(throughput: real): real
      reads this`refillPeriod
    {
      throughput * (refillPeriod as real / 1000.0 / 1000.0)
    }

    method SetCapacity(value: real)
      modifies this`capacity
      ensures capacity == NormalizeTokens(value)
    {
      capacity := NormalizeTokens(value);
    }

    method SetTokenCount(value: real)
      modifies this`tokens
      ensures tokens == NormalizeTokens(value)
    {
      tokens := NormalizeTokens(value);
    }

    method SetRefillPeriod(period: int)
      modifies this`refillPeriod
      ensures refillPeriod == period
    {
      refillPeriod := period;
    }
  }

  /** A refill is saved when the first chunk fits the level at the start. */
  ghost function Saved(n: real, capacity: real, tokens: real): nat {
    if (if n < capacity then n else capacity) <= tokens then 1 else 0
  }

  /** `after` is `before`, perhaps a refill, and a grant of `n`. */
  ghost predicate OneChunk(before: seq<Event>, after: seq<Event>, n: real, refilled: bool) {
    && |after| > 0 && after[|after| - 1].Grant? && after[|after| - 1].amount == n
    && if refilled then OneRefill(before, after[..|after| - 1]) else after[..|after| - 1] == before
  }

  ghost predicate OneRefill(before: seq<Event>, after: seq<Event>) {
    |after| == |before| + 1 && after[..|before|] == before && after[|before|].Refill?
  }

  /** Every grant added since `before` is at most the capacity, and nonzero when `positive`. */
  ghost predicate ChunksWithin(before: seq<Event>, after: seq<Event>, capacity: real, positive: bool) {
    && before <= after
    && forall i | |before| <= i < |after| && after[i].Grant? ::
         0.0 <= after[i].amount <= capacity && (positive ==> 0.0 < after[i].amount)
  }

  lemma ChunksStart(before: seq<Event>, capacity: real, positive: bool)
    ensures ChunksWithin(before, before, capacity, positive)
  {}

  lemma TimesZero(c: real)
    ensures Times(c, 0) == 0.0 && Times(c, 1) == c
  {}

  /** While tokens are left, fewer chunks than the total have been taken. */
  lemma ChunksLeft(n: real, capacity: real, k: nat, left: real)
    requires n > 0.0 && capacity > 0.0 && left > 0.0
    requires n - left == Times(capacity, k)
    ensures k < Chunks(n, capacity)
    ensures Times(capacity, k + 1) == Times(capacity, k) + capacity
  {
    var c := Chunks(n, capacity);
    TimesSteps(capacity, k);
    hide Times;
    if c <= k {
      TimesMonotone(capacity, c, k);
    }
  }

  /** One chunk: what it adds to the counts. */
  lemma CountStep(before: seq<Event>, after: seq<Event>, n: real, refilled: bool)
    requires OneChunk(before, after, n, refilled)
    ensures before <= after
    ensures Total(after) == Total(before) + n && Grants(after) == Grants(before) + 1
    ensures RefillCount(after) == RefillCount(before) + if refilled then 1 else 0
  {
    var mid := after[..|after| - 1];
    var b := Bucket(0.0, 0.0, 0, 0);
    assert after == mid + [after[|after| - 1]];
    Appended(b, 0, mid, after[|after| - 1]);
    if refilled {
      assert mid == before + [mid[|before|]];
      Appended(b, 0, before, mid[|before|]);
    }
  }

  lemma ChunksGrow(first: seq<Event>, before: seq<Event>, after: seq<Event>, n: real, refilled: bool,
                   capacity: real, positive: bool)
    requires ChunksWithin(first, before, capacity, positive) && OneChunk(before, after, n, refilled)
    requires 0.0 <= n <= capacity && (positive ==> n > 0.0)
    ensures ChunksWithin(first, after, capacity, positive)
  {
    CountStep(before, after, n, refilled);
    forall i | |first| <= i < |after| && after[i].Grant?
      ensures 0.0 <= after[i].amount <= capacity && (positive ==> 0.0 < after[i].amount)
    {
      if i < |before| {
        assert after[i] == before[i];
      }
    }
  }
}
