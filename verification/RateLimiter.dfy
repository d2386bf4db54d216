/** DynamicRateLimiter: an enforcement object that puts requests through a token bucket, and its
    live reconfiguration. */
module RateLimiter {
  import opened Common
  import opened BucketTrace
  import opened TokenBuckets
  import opened Requests

  function Seconds(period: int): real {
    period as real / 1000.0 / 1000.0
  }

  /** The tokens that `rate` per second puts into a bucket refilled every `period` microseconds. */
  function CapacityOf(rate: int, period: int): real {
    rate as real * Seconds(period)
  }

  /** get_token_bucket_rate: back from the capacity to tokens per second, cast to `long`. */
  function RateOf(capacity: real, period: int): int
    requires period > 0
  {
    assert Seconds(period) > 0.0;
    (capacity / Seconds(period)).Floor
  }

  /** Going from an integer rate to a capacity and back loses nothing. */
  lemma RateRoundTrip(rate: int, period: int)
    requires period > 0
    ensures RateOf(CapacityOf(rate, period), period) == rate
  {
    assert Seconds(period) > 0.0;
    QuotientBack(CapacityOf(rate, period), rate, Seconds(period));
  }

  lemma QuotientBack(c: real, r: int, x: real)
    requires x > 0.0 && c == r as real * x
    ensures (c / x).Floor == r
  {
    assert c / x * x == c;
    Cancel(c / x, r as real, x);
  }

  lemma Cancel(q: real, r: real, x: real)
    requires x > 0.0 && q * x == r * x
    ensures q == r
  {
    assert (q - r) * x == 0.0;
  }

  /** In numbers: a million times the capacity is the rate times the period. */
  lemma CapacityInNumbers(rate: int, period: int)
    ensures CapacityOf(rate, period) * 1000000.0 == (rate * period) as real
  {
    ProductAsReal(rate, period);
  }

  lemma ProductAsReal(x: int, y: int)
    ensures (x * y) as real == x as real * y as real
  {}

  lemma CapacityNonNegative(rate: int, period: int)
    requires rate >= 0 && period > 0
    ensures CapacityOf(rate, period) >= 0.0
    ensures rate > 0 ==> CapacityOf(rate, period) > 0.0
  {}

  /** What obj_configure demands of a configuration: the values it indexes, a positive period and a
      rate that is not negative. */
  predicate Acceptable(conf: int, values: seq<int>) {
    && (conf == INIT ==> |values| >= 2 && values[0] > 0 && values[1] >= 0)
    && (conf == RATE ==> |values| >= 1 && values[0] >= 0)
    && (conf == REFILL ==> |values| >= 1 && values[0] > 0)
  }

  class DynamicRateLimiter {
    const objectId: int
    const bucket: TokenBucket
    const COST_PER_REQUEST: int := 1
    var tokenBucketRate: real

    /** The integer rate in force. */
    ghost var rate: int

    ghost predicate Valid()
      reads this, bucket
    {
      && bucket.Valid()
      && rate >= 0
      && bucket.capacity == CapacityOf(rate, bucket.refillPeriod)
    }

    constructor (objectId: int, clock: nat -> int, tick: nat)
      requires Ticking(clock)
      ensures Valid() && fresh(bucket) && rate == 50000 && bucket.trace == []
      ensures bucket.refillPeriod == 1000000 && bucket.capacity == 50000.0 && bucket.tokens == 50000.0
    {
      this.objectId := objectId;
      bucket := new TokenBucket(50000.0, 50000.0, 1000000, clock, tick);
      tokenBucketRate := 0.0;
      rate := 50000;
    }

    function BasicIoCost(t: Ticket): real {
      (COST_PER_REQUEST * t.payload) as real
    }

    /** Takes the payload out of the bucket and answers the request. */
    method ObjEnforce(ticket: Ticket, result: Result) returns (answer: Result)
      requires Valid() && ticket.payload >= 0 && (ticket.payload > 0 ==> bucket.capacity > 0.0)
      modifies bucket`tick, bucket`nextRefill, bucket`tokens, bucket`trace
      ensures Valid() && old(bucket.trace) <= bucket.trace
      ensures Total(bucket.trace) == Total(old(bucket.trace)) + ticket.payload as real
      ensures answer == Answered(result, ticket)
      ensures answer.status == Success && answer.ticketId == result.ticketId
      ensures answer.hasContent <==> |ticket.buffer| > 0
      ensures |ticket.buffer| > 0 ==> answer.contentSize == |ticket.buffer| && answer.content == ticket.buffer
    {
      bucket.TryConsume(BasicIoCost(ticket));
      var hasContent := |ticket.buffer| > 0;
      answer := result.(status := Success);
      answer := answer.(hasContent := hasContent);
      if hasContent {
        answer := answer.(contentSize := |ticket.buffer|);
        answer := answer.(content := ticket.buffer);
      }
    }

    /** `init` and `rate` set the rate; `refill` changes the period and keeps the rate exactly; an
        unknown configuration changes nothing.  The level never leaves [0, capacity]. */
    method ObjConfigure(conf: int, values: seq<int>) returns (status: Status)
      requires Valid() && Acceptable(conf, values)
      modifies this`tokenBucketRate, this`rate
      modifies bucket`capacity, bucket`tokens, bucket`refillPeriod, bucket`tick, bucket`trace
      ensures Valid()
      ensures status == if conf in {INIT, RATE, REFILL} then OK else NotSupported
      ensures Setting(bucket.capacity, bucket.refillPeriod)
           == Configured(Setting(old(bucket.capacity), old(bucket.refillPeriod)), conf, values)
      ensures conf == INIT ==>
        rate == values[1] && bucket.refillPeriod == values[0] && bucket.tokens == bucket.capacity
      ensures conf == RATE ==>
        && rate == values[0] && bucket.refillPeriod == old(bucket.refillPeriod)
        && bucket.tokens == if old(bucket.tokens) > bucket.capacity then bucket.capacity else old(bucket.tokens)
      ensures conf == REFILL ==>
        rate == old(rate) && bucket.refillPeriod == values[0] && bucket.tokens == bucket.capacity
      ensures conf !in {INIT, RATE, REFILL} ==>
        rate == old(rate) && bucket.State() == old(bucket.State()) && bucket.trace == old(bucket.trace)
      ensures conf in {INIT, RATE, REFILL} ==> Logged(old(bucket.trace), old(bucket.tick), conf != RATE)
      ensures tokenBucketRate == bucket.capacity / bucket.refillPeriod as real
      ensures bucket.capacity * 1000000.0 == (rate * bucket.refillPeriod) as real
      ensures conf == 1 ==>
        status == OK && bucket.refillPeriod == values[0] && bucket.tokens == bucket.capacity
        && bucket.capacity * 1000000.0 == (values[1] * values[0]) as real
      ensures conf == 2 ==>
        status == OK && bucket.refillPeriod == old(bucket.refillPeriod)
        && bucket.capacity * 1000000.0 == (values[0] * bucket.refillPeriod) as real
      ensures conf == 4 ==>
        status == OK && bucket.refillPeriod == values[0] && bucket.tokens == bucket.capacity
        && bucket.capacity * 1000000.0 == (old(rate) * values[0]) as real
      ensures conf != 1 && conf != 2 && conf != 4 ==> status == NotSupported && bucket.State() == old(bucket.State())
    {
      hide Ticking, Legal, Run, CapacityOf, RateOf;
      RateRoundTrip(rate, bucket.refillPeriod);
      if conf == INIT {
        Initialize(values[0], values[1]);
        status := OK;
      } else if conf == RATE {
        ConfigureRate(values[0]);
        status := OK;
      } else if conf == REFILL {
        ConfigureRefillWindow(values[0]);
        status := OK;
      } else {
        status := NotSupported;
      }
      tokenBucketRate := bucket.capacity / bucket.refillPeriod as real;
      CapacityInNumbers(rate, bucket.refillPeriod);
    }

    method Initialize(refillPeriod: int, newRate: int)
      requires Valid() && refillPeriod > 0 && newRate >= 0
      modifies this`rate, bucket`capacity, bucket`tokens, bucket`refillPeriod, bucket`tick, bucket`trace
      ensures Valid() && rate == newRate
      ensures bucket.refillPeriod == refillPeriod && bucket.tokens == bucket.capacity
      ensures bucket.capacity * 1000000.0 == (rate * bucket.refillPeriod) as real
      ensures Logged(old(bucket.trace), old(bucket.tick), true)
    {
      hide Ticking, Legal, Run;
      ghost var before := bucket.State();
      bucket.SetRefillPeriod(refillPeriod);
      bucket.SetTokenCount(newRate as real);
      bucket.SetCapacity(newRate as real);
      rate := newRate;
      CapacityNonNegative(newRate, refillPeriod);
      assert bucket.capacity == CapacityOf(newRate, refillPeriod);
      CapacityInNumbers(rate, refillPeriod);
      hide CapacityOf;
      bucket.LogConfiguration(before, true);
      CapacityInNumbers(rate, bucket.refillPeriod);
    }

    method ConfigureRate(newRate: int)
      requires Valid() && newRate >= 0
      modifies this`rate, bucket`capacity, bucket`tokens, bucket`tick, bucket`trace
      ensures Valid() && rate == newRate
      ensures bucket.tokens == if old(bucket.tokens) > bucket.capacity then bucket.capacity else old(bucket.tokens)
      ensures bucket.capacity * 1000000.0 == (rate * bucket.refillPeriod) as real
      ensures Logged(old(bucket.trace), old(bucket.tick), false)
    {
      hide Ticking, Legal, Run;
      ghost var before := bucket.State();
      var tokens := bucket.NormalizeTokens(newRate as real);
      bucket.SetCapacity(newRate as real);
      if bucket.tokens > tokens {
        bucket.SetTokenCount(newRate as real);
      }
      rate := newRate;
      CapacityNonNegative(newRate, bucket.refillPeriod);
      bucket.LogConfiguration(before, false);
      CapacityInNumbers(rate, bucket.refillPeriod);
    }

    method ConfigureRefillWindow(window: int)
      requires Valid() && window > 0
      modifies this`rate, bucket`capacity, bucket`tokens, bucket`refillPeriod, bucket`tick, bucket`trace
      ensures Valid() && rate == old(rate)
      ensures bucket.refillPeriod == window && bucket.tokens == bucket.capacity
      ensures bucket.capacity * 1000000.0 == (rate * bucket.refillPeriod) as real
      ensures Logged(old(bucket.trace), old(bucket.tick), true)
    {
      hide Ticking, Legal, Run;
      ghost var before := bucket.State();
      var current := RateOf(bucket.capacity, bucket.refillPeriod);
      RateRoundTrip(rate, bucket.refillPeriod);
      bucket.SetRefillPeriod(window);
      bucket.SetTokenCount(current as real);
      bucket.SetCapacity(current as real);
      CapacityNonNegative(rate, window);
      bucket.LogConfiguration(before, true);
      CapacityInNumbers(rate, bucket.refillPeriod);
    }

    /** The configuration was recorded with the values now in force. */
    ghost predicate Logged(before: seq<Event>, tick: nat, raises: bool)
      reads bucket
    {
      bucket.trace == before
        + [Configure(bucket.clock(tick), bucket.capacity, bucket.tokens, bucket.refillPeriod, raises)]
    }
  }

  // ---------- runs of reconfigurations ----------

  /** What the bucket stores of a rate: its capacity and its refill period. */
  datatype Setting = Setting(capacity: real, period: int)

  /** A configuration works on the stored values: a rate becomes a capacity, and a new period reads the
      rate back from the capacity first. */
  function Configured(s: Setting, conf: int, values: seq<int>): (r: Setting)
    requires s.period > 0 && Acceptable(conf, values)
    ensures r.period > 0
  {
    if conf == INIT then Setting(CapacityOf(values[1], values[0]), values[0])
    else if conf == RATE then Setting(CapacityOf(values[0], s.period), s.period)
    else if conf == REFILL then Setting(CapacityOf(RateOf(s.capacity, s.period), values[0]), values[0])
    else s
  }

  datatype Command = Command(conf: int, values: seq<int>)

  ghost predicate AllAcceptable(cs: seq<Command>) {
    forall c | c in cs :: Acceptable(c.conf, c.values)
  }

  function ConfiguredBy(s: Setting, cs: seq<Command>): (r: Setting)
    requires s.period > 0 && AllAcceptable(cs)
    ensures r.period > 0
    decreases |cs|
  {
    if |cs| == 0 then s
    else
      var c := cs[|cs| - 1];
      assert c in cs && AllAcceptable(cs[..|cs| - 1]);
      Configured(ConfiguredBy(s, cs[..|cs| - 1]), c.conf, c.values)
  }

  /** The last rate that was set, by init or by rate. */
  function LastRate(rate: int, cs: seq<Command>): int
    requires AllAcceptable(cs)
    decreases |cs|
  {
    if |cs| == 0 then rate
    else
      var c := cs[|cs| - 1];
      assert c in cs && AllAcceptable(cs[..|cs| - 1]);
      if c.conf == INIT then c.values[1]
      else if c.conf == RATE then c.values[0]
      else LastRate(rate, cs[..|cs| - 1])
  }

  /** Over any run of configurations from an integer rate, the rate read back from the stored capacity
      is the last one set, and the capacity is exactly that rate's: changing the period any number of
      times loses nothing. */
  lemma {:induction false} RateSurvives(rate: int, period: int, cs: seq<Command>)
    requires period > 0 && AllAcceptable(cs)
    ensures var s := ConfiguredBy(Setting(CapacityOf(rate, period), period), cs);
      && RateOf(s.capacity, s.period) == LastRate(rate, cs)
      && s.capacity == CapacityOf(LastRate(rate, cs), s.period)
      && s.capacity * 1000000.0 == (LastRate(rate, cs) * s.period) as real
    decreases |cs|
  {
    hide CapacityOf, RateOf;
    var s := ConfiguredBy(Setting(CapacityOf(rate, period), period), cs);
    if |cs| > 0 {
      assert cs[|cs| - 1] in cs && AllAcceptable(cs[..|cs| - 1]);
      RateSurvives(rate, period, cs[..|cs| - 1]);
    }
    RateRoundTrip(LastRate(rate, cs), s.period);
    CapacityInNumbers(LastRate(rate, cs), s.period);
  }
}
