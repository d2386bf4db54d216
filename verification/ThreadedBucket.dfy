/** The token bucket with a background refill thread: any number of consumers and the refill thread
    interleave at their critical sections. */
module ThreadedBucket {
  import opened Common
  import opened BucketTrace
  import opened TokenBuckets

  // ---------- the step system ----------

  /** The refill thread between sleeps, asleep until a time, or gone. */
  datatype Refiller = Awake | Asleep(until: int) | Exited

  /** A request inside try_consume: what it asked for, what is left, the chunk it now wants, and when it
      waits on the condition for it, the time at which the wait runs out. */
  datatype Consumer = Consumer(asked: real, left: real, chunk: real, active: bool, deadline: Option<int>)

  datatype Taken = Taken(id: nat, amount: real)

  datatype State = State(
    capacity: real, tokens: real, period: int,
    now: int, refiller: Refiller, interrupted: bool,
    sleeps: nat, consumers: map<nat, Consumer>,
    log: seq<Taken>, trace: seq<Event>)

  function Initial(capacity: real, tokens: real, period: int, now: int): State {
    State(capacity, tokens, period, now, Awake, false, 0, map[], [], [])
  }

  datatype Step =
    | Pass(d: nat)             // time passes
    | FallAsleep               // the loop test, then the sleep
    | Refilling                // the sleep is over: refill under the lock
    | Exit                     // the loop test after an interruption
    | Enter(id: nat, n: real)  // a consumer calls try_consume
    | Wait(id: nat)            // under the lock there are too few tokens
    | Chunk(id: nat)           // under the lock, woken or not, there are enough tokens
    | Break(id: nat)           // a wait times out after an interruption: takes the tokens unseen
    | Interrupt

  predicate Enabled(s: State, e: Step) {
    match e
    case Pass(_) => true
    case FallAsleep => s.refiller.Awake? && !s.interrupted
    case Refilling => s.refiller.Asleep? && s.refiller.until <= s.now
    case Exit => s.refiller.Awake? && s.interrupted
    case Enter(id, n) => id !in s.consumers && n >= 0.0
    case Chunk(id) => id in s.consumers && s.consumers[id].active && s.consumers[id].chunk <= s.tokens
    case Wait(id) => id in s.consumers && s.consumers[id].active && s.consumers[id].chunk > s.tokens
    case Break(id) =>
      && id in s.consumers && s.consumers[id].active && s.interrupted
      && s.consumers[id].deadline.Some? && s.consumers[id].deadline.value <= s.now
    case Interrupt => true
  }

  /** A consumer that asks for n tokens. */
  function Entering(n: real, capacity: real): Consumer {
    Consumer(n, n, if n > capacity then capacity else n, true, None)
  }

  /** The consumer after its chunk: oversized requests go on with what is left. */
  function Served(c: Consumer, capacity: real): Consumer {
    var left := c.left - c.chunk;
    if c.asked > capacity
    then Consumer(c.asked, left, if left < capacity then left else c.chunk, left > 0.0, None)
    else Consumer(c.asked, left, c.chunk, false, None)
  }

  function Next(s: State, e: Step): State
    requires Enabled(s, e)
  {
    match e
    case Pass(d) => s.(now := s.now + d)
    case FallAsleep => s.(refiller := Asleep(s.now + s.period))
    case Refilling =>
      s.(tokens := s.capacity, refiller := Awake, sleeps := s.sleeps + 1, trace := s.trace + [Refill(s.now)])
    case Exit => s.(refiller := Exited)
    case Enter(id, n) =>
      s.(consumers := s.consumers[id := Entering(n, s.capacity)])
    case Wait(id) =>
      s.(consumers := s.consumers[id := s.consumers[id].(deadline := Some(s.now + s.period))])
    case Chunk(id) =>
      var c := s.consumers[id];
      s.(tokens := s.tokens - c.chunk, consumers := s.consumers[id := Served(c, s.capacity)],
         log := s.log + [Taken(id, c.chunk)], trace := s.trace + [Grant(s.now, c.chunk)])
    case Break(id) =>
      var c := s.consumers[id];
      s.(tokens := s.tokens - c.chunk, consumers := s.consumers[id := Served(c, s.capacity)],
         log := s.log + [Taken(id, c.chunk)], trace := s.trace + [Grant(s.now, c.chunk)])
    case Interrupt => s.(interrupted := true)
  }

  /** The steps can be taken one after another from `s`. */
  predicate CanRun(s: State, steps: seq<Step>)
    decreases |steps|, 0
  {
    |steps| == 0 || (CanRun(s, steps[..|steps| - 1]) && Enabled(After(s, steps[..|steps| - 1]), steps[|steps| - 1]))
  }

  function After(s: State, steps: seq<Step>): State
    requires CanRun(s, steps)
    decreases |steps|, 1
  {
    if |steps| == 0 then s else Next(After(s, steps[..|steps| - 1]), steps[|steps| - 1])
  }

  // ---------- accounting ----------

  function Sum(log: seq<Taken>): real {
    if |log| == 0 then 0.0 else Sum(log[..|log| - 1]) + log[|log| - 1].amount
  }

  function SumFor(log: seq<Taken>, id: nat): real {
    if |log| == 0 then 0.0
    else SumFor(log[..|log| - 1], id) + if log[|log| - 1].id == id then log[|log| - 1].amount else 0.0
  }

  lemma SumGrows(log: seq<Taken>, t: Taken)
    ensures Sum(log + [t]) == Sum(log) + t.amount
    ensures forall id :: SumFor(log + [t], id) == SumFor(log, id) + if t.id == id then t.amount else 0.0
  {
    assert (log + [t])[..|log|] == log;
  }

  /** A consumer in the middle of its request. */
  ghost predicate Sound(c: Consumer, capacity: real) {
    && 0.0 <= c.left <= c.asked
    && 0.0 <= c.chunk
    && (c.active ==> c.chunk == if c.left > capacity then capacity else c.left)
    && (c.active && c.asked > capacity ==> c.left > 0.0)
    && (c.active && c.asked <= capacity ==> c.left == c.asked)
    && (!c.active ==> c.left == 0.0)
  }

  /** What every run keeps, with or without interruption: every request has taken exactly what it no
      longer has left. */
  ghost predicate Accounted(s: State) {
    && s.capacity > 0.0
    && (forall id | id in s.consumers :: Sound(s.consumers[id], s.capacity))
    && (forall id | id in s.consumers :: SumFor(s.log, id) == s.consumers[id].asked - s.consumers[id].left)
    && (forall id | id !in s.consumers :: SumFor(s.log, id) == 0.0)
  }

  /** A broken wait is covered when there happen to be enough tokens after all. */
  predicate Covers(s: State, e: Step)
    requires Enabled(s, e)
  {
    e.Break? ==> s.consumers[e.id].chunk <= s.tokens
  }

  /** What every run keeps whose broken waits are covered: the level is in range, the initial level and the
      completed sleeps pay for what was granted, and the history is one the lazy bucket could have had. */
  ghost predicate InRange(s: State, tokens0: real, start: int) {
    var b := Bucket(s.capacity, tokens0, s.period, start + s.period);
    && s.period > 0
    && 0.0 <= s.tokens <= s.capacity
    && WellFormed(b)
    && Sum(s.log) + s.tokens <= tokens0 + Times(s.capacity, s.sleeps)
    && Legal(b, start, s.trace)
    && LastTime(start, s.trace) <= s.now
    && Run(b, s.trace) == Bucket(s.capacity, s.tokens, s.period, Run(b, s.trace).next)
    && (s.refiller.Awake? ==> Run(b, s.trace).next <= s.now + s.period)
    && (s.refiller.Asleep? ==> Run(b, s.trace).next <= s.refiller.until)
  }

  lemma StepAccounted(s: State, e: Step)
    requires Accounted(s) && Enabled(s, e)
    ensures Accounted(Next(s, e))
  {
    hide SumFor;
    if e.Chunk? || e.Break? {
      SumGrows(s.log, Taken(e.id, s.consumers[e.id].chunk));
    }
  }

  lemma StepInRange(s: State, e: Step, tokens0: real, start: int)
    requires Accounted(s) && InRange(s, tokens0, start) && Enabled(s, e) && Covers(s, e)
    ensures InRange(Next(s, e), tokens0, start)
  {
    hide Legal, Run, Times, Sum, SumFor;
    match e {
      case Refilling => RefillInRange(s, tokens0, start);
      case Chunk(id) =>
        assert Sound(s.consumers[id], s.capacity);
        ChunkInRange(s, id, tokens0, start);
      case Break(id) =>
        assert Sound(s.consumers[id], s.capacity);
        ChunkInRange(s, id, tokens0, start);
      case _ =>
    }
  }

  lemma RefillInRange(s: State, tokens0: real, start: int)
    requires InRange(s, tokens0, start) && Enabled(s, Refilling)
    ensures InRange(Next(s, Refilling), tokens0, start)
  {
    hide Legal, Run, Times, Sum;
    Appended(Bucket(s.capacity, tokens0, s.period, start + s.period), start, s.trace, Refill(s.now));
    TimesSteps(s.capacity, s.sleeps);
  }

  lemma ChunkInRange(s: State, id: nat, tokens0: real, start: int)
    requires InRange(s, tokens0, start) && Enabled(s, Chunk(id)) && 0.0 <= s.consumers[id].chunk
    ensures InRange(Next(s, Chunk(id)), tokens0, start)
  {
    hide Legal, Run, Times, Sum, SumFor, Served;
    var c := s.consumers[id];
    Appended(Bucket(s.capacity, tokens0, s.period, start + s.period), start, s.trace, Grant(s.now, c.chunk));
    SumGrows(s.log, Taken(id, c.chunk));
  }

  lemma {:induction false} RunAccounted(capacity: real, tokens: real, period: int, now: int, steps: seq<Step>)
    requires capacity > 0.0 && CanRun(Initial(capacity, tokens, period, now), steps)
    ensures var s := After(Initial(capacity, tokens, period, now), steps);
      Accounted(s) && s.capacity == capacity && s.period == period
    decreases |steps|
  {
    hide Accounted, Enabled;
    if |steps| == 0 {
      InitialAccounted(capacity, tokens, period, now);
    } else {
      RunAccounted(capacity, tokens, period, now, steps[..|steps| - 1]);
      StepAccounted(After(Initial(capacity, tokens, period, now), steps[..|steps| - 1]), steps[|steps| - 1]);
    }
  }

  lemma InitialAccounted(capacity: real, tokens: real, period: int, now: int)
    requires capacity > 0.0
    ensures Accounted(Initial(capacity, tokens, period, now))
  {}

  /** Every broken wait of the run is covered. */
  predicate AllCovered(s: State, steps: seq<Step>)
    requires CanRun(s, steps)
    decreases |steps|
  {
    |steps| > 0 ==>
      var before := steps[..|steps| - 1];
      AllCovered(s, before) && Covers(After(s, before), steps[|steps| - 1])
  }

  /** The level is in [0, capacity] in every state of the run. */
  predicate AlwaysInRange(s: State, steps: seq<Step>)
    requires CanRun(s, steps)
    decreases |steps|
  {
    && 0.0 <= After(s, steps).tokens <= s.capacity
    && (|steps| > 0 ==> AlwaysInRange(s, steps[..|steps| - 1]))
  }

  lemma {:induction false} RunInRange(capacity: real, tokens: real, period: int, now: int, steps: seq<Step>)
    requires capacity > 0.0 && 0.0 <= tokens <= capacity && period > 0
    requires CanRun(Initial(capacity, tokens, period, now), steps)
    requires AllCovered(Initial(capacity, tokens, period, now), steps)
    ensures InRange(After(Initial(capacity, tokens, period, now), steps), tokens, now)
    decreases |steps|
  {
    hide InRange, Accounted, Enabled, Next, Covers;
    var s0 := Initial(capacity, tokens, period, now);
    if |steps| == 0 {
      InitialInRange(capacity, tokens, period, now);
    } else {
      var before := steps[..|steps| - 1];
      RunInRange(capacity, tokens, period, now, before);
      RunAccounted(capacity, tokens, period, now, before);
      StepInRange(After(s0, before), steps[|steps| - 1], tokens, now);
    }
  }

  lemma InitialInRange(capacity: real, tokens: real, period: int, now: int)
    requires capacity > 0.0 && 0.0 <= tokens <= capacity && period > 0
    ensures InRange(Initial(capacity, tokens, period, now), tokens, now)
  {}

  // ---------- main results ----------

  /** Over every run the level stays in [0, capacity] if and only if no broken wait takes more than
      there is. */
  lemma {:induction false} InRangeIffCovered(capacity: real, tokens: real, period: int, now: int, steps: seq<Step>)
    requires capacity > 0.0 && 0.0 <= tokens <= capacity && period > 0
    requires CanRun(Initial(capacity, tokens, period, now), steps)
    ensures var s := Initial(capacity, tokens, period, now);
      AlwaysInRange(s, steps) <==> AllCovered(s, steps)
    decreases |steps|
  {
    hide Accounted, Enabled;
    var s := Initial(capacity, tokens, period, now);
    RunAccounted(capacity, tokens, period, now, steps);
    if AllCovered(s, steps) {
      RunInRange(capacity, tokens, period, now, steps);
    }
    if |steps| > 0 {
      InRangeIffCovered(capacity, tokens, period, now, steps[..|steps| - 1]);
    }
  }

  ghost predicate NoInterrupt(steps: seq<Step>) {
    forall e | e in steps :: e != Interrupt
  }

  /** Until the bucket is interrupted no wait is broken at all. */
  lemma {:induction false} CoveredUntilInterrupted(
    capacity: real, tokens: real, period: int, now: int, steps: seq<Step>)
    requires CanRun(Initial(capacity, tokens, period, now), steps) && NoInterrupt(steps)
    ensures var s := Initial(capacity, tokens, period, now);
      AllCovered(s, steps) && !After(s, steps).interrupted
    decreases |steps|
  {
    if |steps| > 0 {
      var before := steps[..|steps| - 1];
      assert forall e | e in before :: e in steps;
      assert steps[|steps| - 1] in steps;
      CoveredUntilInterrupted(capacity, tokens, period, now, before);
    }
  }

  /** Request 0 empties the bucket. */
  lemma Drain(capacity: real, tokens: real, period: int, now: int) returns (steps: seq<Step>)
    requires capacity > 0.0 && 0.0 <= tokens <= capacity
    ensures var s := Initial(capacity, tokens, period, now);
      CanRun(s, steps) &&
      var t := After(s, steps);
      t == s.(tokens := 0.0, consumers := t.consumers, log := t.log, trace := t.trace) && 1 !in t.consumers
  {
    var s := Initial(capacity, tokens, period, now);
    assert CanRun(s, []) && After(s, []) == s;
    hide CanRun, After;
    steps := Extend(s, [], Enter(0, tokens));
    steps := Extend(s, steps, Chunk(0));
  }

  /** On an empty bucket request 1 asks for its capacity and has to wait. */
  lemma WaitOnEmpty(s0: State, before: seq<Step>) returns (steps: seq<Step>)
    requires CanRun(s0, before)
    requires var s := After(s0, before); s.capacity > 0.0 && s.tokens == 0.0 && 1 !in s.consumers
    ensures CanRun(s0, steps)
    ensures var s, t := After(s0, before), After(s0, steps);
      var c := Entering(s.capacity, s.capacity).(deadline := Some(s.now + s.period));
      t == s.(consumers := t.consumers) && 1 in t.consumers && t.consumers[1] == c
  {
    hide CanRun, After;
    steps := Extend(s0, before, Enter(1, After(s0, before).capacity));
    steps := Extend(s0, steps, Wait(1));
  }

  /** An interruption ends the refill thread, and the wait times out. */
  lemma BreakAfterInterrupt(s0: State, before: seq<Step>) returns (steps: seq<Step>)
    requires CanRun(s0, before)
    requires var s := After(s0, before);
      && s.refiller.Awake? && 1 in s.consumers && s.consumers[1].active
      && s.consumers[1].deadline == Some(s.now + s.period)
    ensures CanRun(s0, steps)
    ensures After(s0, steps).tokens == After(s0, before).tokens - After(s0, before).consumers[1].chunk
    ensures After(s0, steps).refiller == Exited
  {
    hide CanRun, After, Served;
    var period := After(s0, before).period;
    steps := Extend(s0, before, Interrupt);
    steps := Extend(s0, steps, Exit);
    steps := Extend(s0, steps, Pass(if period > 0 then period else 0));
    steps := Extend(s0, steps, Break(1));
  }

  /** From every starting level there is a run that takes the bucket below zero: the refill thread ends
      after an interruption, and a wait that it left behind times out. */
  lemma OverdrawReachable(capacity: real, tokens: real, period: int, now: int) returns (steps: seq<Step>)
    requires capacity > 0.0 && 0.0 <= tokens <= capacity
    ensures CanRun(Initial(capacity, tokens, period, now), steps)
    ensures After(Initial(capacity, tokens, period, now), steps).tokens == -capacity
    ensures After(Initial(capacity, tokens, period, now), steps).refiller == Exited
  {
    hide CanRun, After;
    var s := Initial(capacity, tokens, period, now);
    steps := Drain(capacity, tokens, period, now);
    steps := WaitOnEmpty(s, steps);
    steps := BreakAfterInterrupt(s, steps);
  }

  lemma Extend(s: State, steps: seq<Step>, e: Step) returns (more: seq<Step>)
    requires CanRun(s, steps) && Enabled(After(s, steps), e)
    ensures more == steps + [e] && CanRun(s, more) && After(s, more) == Next(After(s, steps), e)
  {
    more := steps + [e];
    assert more[..|steps|] == steps;
  }

  /** In every interleaving whose broken waits are covered the level stays in [0, capacity], and what
      was granted is at most the initial level plus the capacity for every completed sleep. */
  lemma LevelAndGrants(capacity: real, tokens: real, period: int, now: int, steps: seq<Step>)
    requires capacity > 0.0 && 0.0 <= tokens <= capacity && period > 0
    requires CanRun(Initial(capacity, tokens, period, now), steps)
    requires AllCovered(Initial(capacity, tokens, period, now), steps)
    ensures var s := After(Initial(capacity, tokens, period, now), steps);
      && 0.0 <= s.tokens <= capacity
      && Sum(s.log) <= tokens + Times(capacity, s.sleeps)
  {
    RunAccounted(capacity, tokens, period, now, steps);
    RunInRange(capacity, tokens, period, now, steps);
  }

  /** It meets the window bound of the lazy bucket. */
  lemma SameRateBound(capacity: real, tokens: real, period: int, now: int, steps: seq<Step>, a: int, w: nat)
    requires capacity > 0.0 && 0.0 <= tokens <= capacity && period > 0
    requires CanRun(Initial(capacity, tokens, period, now), steps)
    requires AllCovered(Initial(capacity, tokens, period, now), steps)
    ensures var s := After(Initial(capacity, tokens, period, now), steps);
      Granted(s.trace, a, a + w) <= Times(capacity, w / period + 2)
  {
    hide Times;
    var s := After(Initial(capacity, tokens, period, now), steps);
    RunAccounted(capacity, tokens, period, now, steps);
    RunInRange(capacity, tokens, period, now, steps);
    NoConfigurations(capacity, tokens, period, now, steps);
    var b := Bucket(capacity, tokens, period, now + period);
    NoRaises(s.trace, a, a + w);
    RateBound(b, now, s.trace, a, w, capacity, period);
  }

  lemma {:induction false} NoConfigurations(capacity: real, tokens: real, period: int, now: int, steps: seq<Step>)
    requires CanRun(Initial(capacity, tokens, period, now), steps)
    ensures forall e | e in After(Initial(capacity, tokens, period, now), steps).trace :: !e.Configure?
    decreases |steps|
  {
    if |steps| > 0 {
      NoConfigurations(capacity, tokens, period, now, steps[..|steps| - 1]);
    }
  }

  /** Whatever the interleaving and the interruptions, a request that has returned took exactly what
      it asked for. */
  lemma FinishedTookAll(capacity: real, tokens: real, period: int, now: int, steps: seq<Step>, id: nat)
    requires capacity > 0.0 && CanRun(Initial(capacity, tokens, period, now), steps)
    requires var s := After(Initial(capacity, tokens, period, now), steps);
      id in s.consumers && !s.consumers[id].active
    ensures var s := After(Initial(capacity, tokens, period, now), steps);
      SumFor(s.log, id) == s.consumers[id].asked
  {
    RunAccounted(capacity, tokens, period, now, steps);
  }

  // ---------- the object ----------

  /** What a consumer finds when it gets the lock back after a wait. */
  datatype Wake = Wake(tokens: real, timedOut: bool, interrupted: bool)

  datatype Outcome = Got | Broke | Waiting

  /** The first of the levels a consumer sees, starting with its own, that ends its wait. */
  ghost predicate EndsAt(level: real, n: real, wakes: seq<Wake>, k: nat) {
    && k <= |wakes|
    && (forall i | 0 <= i < k :: Level(level, wakes, i) < n)
    && (forall i | 0 <= i < k - 1 :: !(wakes[i].timedOut && wakes[i].interrupted))
  }

  /** The level after `i` waits. */
  ghost function Level(level: real, wakes: seq<Wake>, i: nat): real
    requires i <= |wakes|
  {
    if i == 0 then level else wakes[i - 1].tokens
  }

  /** A request for n tokens after j of its chunks, as in the step system. */
  function AfterChunks(n: real, capacity: real, j: nat): Consumer {
    if j == 0 then Entering(n, capacity) else Served(AfterChunks(n, capacity, j - 1), capacity)
  }

  lemma AfterFirst(n: real, capacity: real)
    ensures AfterChunks(n, capacity, 0) == Consumer(n, n, if n > capacity then capacity else n, true, None)
    ensures n <= capacity ==> AfterChunks(n, capacity, 1) == Consumer(n, 0.0, n, false, None)
    ensures Added([]) == 0.0
  {}

  lemma AfterNext(n: real, capacity: real, j: nat, left: real, chunk: real)
    requires n > capacity && AfterChunks(n, capacity, j) == Consumer(n, left, chunk, true, None)
    ensures var left' := left - chunk;
      AfterChunks(n, capacity, j + 1) ==
        Consumer(n, left', if left' < capacity then left' else chunk, left' > 0.0, None)
  {}

  function Added(xs: seq<real>): real {
    if |xs| == 0 then 0.0 else Added(xs[..|xs| - 1]) + xs[|xs| - 1]
  }

  lemma AddedGrows(xs: seq<real>, x: real)
    ensures Added(xs + [x]) == Added(xs) + x
  {
    assert (xs + [x])[..|xs|] == xs;
  }

  class TokenBucketThreaded {
    var capacity: real
    var tokens: real

    constructor (capacity: real, tokens: real)
      ensures this.capacity == capacity && this.tokens == tokens
    {
      this.capacity, this.tokens := capacity, tokens;
    }

    /** The critical section of the refill thread. */
    method RefillOperation()
      modifies this`tokens
      ensures tokens == capacity
    {
      tokens := capacity;
    }

    /** The wait loop of a consumer.  `wakes` is what the other threads make it find each time it
        gets the lock back.  It takes its tokens at the first wake that has enough, or at the first
        one that timed out after an interruption; until then it takes nothing. */
    method ConsumeOperation(n: real, wakes: seq<Wake>) returns (outcome: Outcome, k: nat)
      modifies this`tokens
      ensures EndsAt(old(tokens), n, wakes, k)
      ensures outcome == Got ==> n <= Level(old(tokens), wakes, k) && tokens == Level(old(tokens), wakes, k) - n
      ensures outcome == Broke ==>
        && k > 0 && wakes[k - 1].timedOut && wakes[k - 1].interrupted
        && tokens == wakes[k - 1].tokens - n
      ensures outcome == Waiting ==> k == |wakes| && tokens == Level(old(tokens), wakes, k) < n
    {
      k := 0;
      while n > tokens
        invariant EndsAt(old(tokens), n, wakes, k)
        invariant tokens == Level(old(tokens), wakes, k)
        invariant k > 0 ==> !(wakes[k - 1].timedOut && wakes[k - 1].interrupted)
        decreases |wakes| - k
      {
        if k == |wakes| {
          return Waiting, k;
        }
        tokens := wakes[k].tokens;
        k := k + 1;
        if wakes[k - 1].timedOut && wakes[k - 1].interrupted {
          tokens := tokens - n;
          return Broke, k;
        }
      }
      tokens := tokens - n;
      outcome := Got;
    }

    /** try_consume: the chunks of the request, one after another.  `script[j]` is what the waits for the
        j-th chunk find; where it runs out the consumer still waits.  The chunks are those that the
        step system serves, so a finished request took n tokens in n / capacity chunks, rounded up. */
    method TryConsume(n: real, script: seq<seq<Wake>>) returns (done: bool, taken: seq<real>)
      requires n >= 0.0 && capacity > 0.0
      modifies this`tokens
      ensures forall j | 0 <= j < |taken| :: taken[j] == AfterChunks(n, capacity, j).chunk
      ensures done <==> !AfterChunks(n, capacity, |taken|).active
      ensures Added(taken) == n - AfterChunks(n, capacity, |taken|).left
      ensures done ==> Added(taken) == n && (n > 0.0 ==> |taken| == Chunks(n, capacity))
    {
      AfterFirst(n, capacity);
      TimesZero(capacity);
      hide Times, AfterChunks, Served, Added, Entering;
      taken := [];
      if n > capacity {
        var tokensLeft := n;
        var iterationTokens := capacity;
        while tokensLeft > 0.0
          invariant 0.0 <= tokensLeft <= n && Added(taken) == n - tokensLeft
          invariant AfterChunks(n, capacity, |taken|) ==
            Consumer(n, tokensLeft, iterationTokens, tokensLeft > 0.0, None)
          invariant forall j | 0 <= j < |taken| :: taken[j] == AfterChunks(n, capacity, j).chunk
          invariant tokensLeft > 0.0 ==>
            && iterationTokens == (if tokensLeft < capacity then tokensLeft else capacity)
            && n - tokensLeft == Times(capacity, |taken|)
          invariant tokensLeft == 0.0 ==>
            |taken| > 0 && Times(capacity, |taken| - 1) < n <= Times(capacity, |taken|)
          decreases Chunks(n, capacity) - |taken|
        {
          ChunksLeft(n, capacity, |taken|, tokensLeft);
          var outcome, _ := ConsumeOperation(iterationTokens, if |taken| < |script| then script[|taken|] else []);
          if outcome.Waiting? {
            return false, taken;
          }
          AfterNext(n, capacity, |taken|, tokensLeft, iterationTokens);
          AddedGrows(taken, iterationTokens);
          taken := taken + [iterationTokens];
          tokensLeft := tokensLeft - iterationTokens;
          if tokensLeft < capacity {
            iterationTokens := tokensLeft;
          }
        }
        ChunksUnique(n, capacity, |taken|);
      } else {
        var outcome, _ := ConsumeOperation(n, if |script| > 0 then script[0] else []);
        if outcome.Waiting? {
          return false, taken;
        }
        AddedGrows(taken, n);
        taken := taken + [n];
        if n > 0.0 { ChunksUnique(n, capacity, 1); }
      }
      done := true;
    }
  }
}
