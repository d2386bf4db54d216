/** Statistics of a channel: one total and one windowed counter per operation, as unsigned 64-bit
    numbers.  Collecting reports the window and starts a new one. */
module ChannelStatistics {
  import opened Common

  /** Unsigned 64-bit arithmetic. */
  function Wrap(x: nat): Word {
    x % TWO_64
  }

  datatype Counters = Counters(total: seq<Word>, window: seq<Word>)

  /** An update of one entry, or either kind of collection. */
  datatype Operation = Update(position: nat, value: Word) | Collect

  predicate Shaped(s: Counters, size: nat) {
    |s.total| == size && |s.window| == size
  }

  predicate InRange(ops: seq<Operation>, size: nat) {
    forall o | o in ops && o.Update? :: o.position < size
  }

  function Zeros(size: nat): (z: seq<Word>)
    ensures |z| == size && forall i | 0 <= i < size :: z[i] == 0
  {
    seq(size, _ => 0)
  }

  function Next(s: Counters, o: Operation): (s': Counters)
    requires |s.total| == |s.window| && (o.Update? ==> o.position < |s.total|)
    ensures Shaped(s', |s.total|)
  {
    match o
    case Update(p, v) =>
      Counters(s.total[p := Wrap(s.total[p] + v)], s.window[p := Wrap(s.window[p] + v)])
    case Collect => s.(window := Zeros(|s.window|))
  }

  /** The counters after a run from zero. */
  function After(size: nat, ops: seq<Operation>): (s: Counters)
    requires InRange(ops, size)
    ensures Shaped(s, size)
    decreases |ops|
  {
    if |ops| == 0 then Counters(Zeros(size), Zeros(size))
    else
      assert ops[|ops| - 1] in ops;
      Next(After(size, ops[..|ops| - 1]), ops[|ops| - 1])
  }

  /** The windows that collections closed, in order. */
  function Closed(size: nat, ops: seq<Operation>): (ws: seq<seq<Word>>)
    requires InRange(ops, size)
    ensures forall w | w in ws :: |w| == size
    decreases |ops|
  {
    if |ops| == 0 then []
    else
      var init := ops[..|ops| - 1];
      Closed(size, init) + if ops[|ops| - 1].Collect? then [After(size, init).window] else []
  }

  /** What entry i was given over a run, and since its last collection. */
  function Given(ops: seq<Operation>, i: nat): nat
    decreases |ops|
  {
    if |ops| == 0 then 0
    else
      var o := ops[|ops| - 1];
      Given(ops[..|ops| - 1], i) + if o.Update? && o.position == i then o.value else 0
  }

  function GivenInWindow(ops: seq<Operation>, i: nat): nat
    decreases |ops|
  {
    if |ops| == 0 then 0
    else
      var o := ops[|ops| - 1];
      if o.Collect? then 0
      else GivenInWindow(ops[..|ops| - 1], i) + if o.position == i then o.value else 0
  }

  lemma ModStep(a: nat, b: nat, v: nat)
    requires b == Wrap(a)
    ensures Wrap(b + v) == Wrap(a + v)
  {
    var q := a / TWO_64;
    assert a + v == b + v + TWO_64 * q;
    ModShift(b + v, q);
  }

  lemma ModShift(x: nat, q: nat)
    ensures (x + TWO_64 * q) % TWO_64 == x % TWO_64
  {
    var r, d := x % TWO_64, x / TWO_64;
    assert x + TWO_64 * q == TWO_64 * (d + q) + r;
  }

  /** The counters are what was given, modulo 2^64: in total, and since the last collection. */
  lemma {:induction false} CountersCount(size: nat, ops: seq<Operation>, i: nat)
    requires InRange(ops, size) && i < size
    ensures After(size, ops).total[i] == Wrap(Given(ops, i))
    ensures After(size, ops).total[i] == Given(ops, i) % 0x1_0000_0000_0000_0000
    ensures After(size, ops).window[i] == Wrap(GivenInWindow(ops, i))
    ensures After(size, ops).window[i] == GivenInWindow(ops, i) % 0x1_0000_0000_0000_0000
    decreases |ops|
  {
    assert Wrap(0) == 0;
    assert Wrap(Given(ops, i)) == Given(ops, i) % 0x1_0000_0000_0000_0000;
    assert Wrap(GivenInWindow(ops, i)) == GivenInWindow(ops, i) % 0x1_0000_0000_0000_0000;
    hide Wrap;
    if |ops| > 0 {
      var init, o := ops[..|ops| - 1], ops[|ops| - 1];
      CountersCount(size, init, i);
      if o.Update? {
        ModStep(Given(init, i), After(size, init).total[i], o.value);
        ModStep(GivenInWindow(init, i), After(size, init).window[i], o.value);
      }
    }
  }

  // ---------- conservation ----------

  function Sum(xs: seq<nat>): nat {
    if |xs| == 0 then 0 else Sum(xs[..|xs| - 1]) + xs[|xs| - 1]
  }

  /** Entry i over a list of windows. */
  function Column(ws: seq<seq<Word>>, i: nat): nat
    requires forall w | w in ws :: i < |w|
    decreases |ws|
  {
    if |ws| == 0 then 0
    else
      assert ws[|ws| - 1] in ws;
      Column(ws[..|ws| - 1], i) + ws[|ws| - 1][i]
  }

  /** The counter metric of every window, added up. */
  function Reported(ws: seq<seq<Word>>): nat
    decreases |ws|
  {
    if |ws| == 0 then 0 else Reported(ws[..|ws| - 1]) + Sum(ws[|ws| - 1])
  }

  lemma ColumnAppend(ws: seq<seq<Word>>, w: seq<Word>, i: nat)
    requires i < |w| && forall x | x in ws :: i < |x|
    ensures Column(ws + [w], i) == Column(ws, i) + w[i]
  {
    assert (ws + [w])[..|ws|] == ws;
  }

  /** Each total counter is the sum of its windows at every collection and the open window, modulo
      2^64. */
  lemma {:induction false} TotalsConserved(size: nat, ops: seq<Operation>, i: nat)
    requires InRange(ops, size) && i < size
    ensures After(size, ops).total[i] == Wrap(Column(Closed(size, ops), i) + After(size, ops).window[i])
    decreases |ops|
  {
    assert Wrap(0) == 0;
    hide Wrap, Next;
    if |ops| > 0 {
      var init, o := ops[..|ops| - 1], ops[|ops| - 1];
      var s, ws := After(size, init), Closed(size, init);
      TotalsConserved(size, init, i);
      LastStep(size, ops);
      hide After, Closed, Column;
      StepConserved(s, ws, o, i);
    } else {
      assert Closed(size, ops) == [];
    }
  }

  lemma LastStep(size: nat, ops: seq<Operation>)
    requires InRange(ops, size) && |ops| > 0
    ensures var init, o := ops[..|ops| - 1], ops[|ops| - 1];
      && (o.Update? ==> o.position < size)
      && After(size, ops) == Next(After(size, init), o)
      && Closed(size, ops) == Closed(size, init) + if o.Collect? then [After(size, init).window] else []
  {}

  /** One operation keeps the sum. */
  lemma StepConserved(s: Counters, ws: seq<seq<Word>>, o: Operation, i: nat)
    requires |s.total| == |s.window| && (o.Update? ==> o.position < |s.total|)
    requires i < |s.total| && forall w | w in ws :: i < |w|
    requires s.total[i] == Wrap(Column(ws, i) + s.window[i])
    ensures var ws' := ws + if o.Collect? then [s.window] else [];
      Next(s, o).total[i] == Wrap(Column(ws', i) + Next(s, o).window[i])
  {
    hide Wrap;
    match o {
      case Collect => ColumnAppend(ws, s.window, i);
      case Update(p, v) =>
        assert ws + [] == ws;
        if p == i {
          BothGrow(Column(ws, i), s.window[i], s.total[i], v);
        }
    }
  }

  lemma BothGrow(c: nat, window: Word, total: Word, v: nat)
    requires total == Wrap(c + window)
    ensures Wrap(total + v) == Wrap(c + Wrap(window + v))
  {
    ModStep(c + window, total, v);
    ModStep(window + v, Wrap(window + v), c);
  }

  /** All windows of entry i together, the open one included. */
  function Collected(size: nat, ops: seq<Operation>, i: nat): nat
    requires InRange(ops, size) && i < size
  {
    Column(Closed(size, ops), i) + After(size, ops).window[i]
  }

  /** Adding up windows is adding up columns. */
  lemma {:induction false} ByColumns(ws: seq<seq<Word>>, size: nat)
    requires forall w | w in ws :: |w| == size
    ensures Reported(ws) == Sum(seq(size, i requires 0 <= i < size => Column(ws, i)))
    decreases |ws|
  {
    var columns := seq(size, i requires 0 <= i < size => Column(ws, i));
    if |ws| == 0 {
      SumZeros(columns);
    } else {
      var init, w := ws[..|ws| - 1], ws[|ws| - 1];
      assert w in ws && forall x | x in init :: x in ws;
      ByColumns(init, size);
      SumAdds(seq(size, i requires 0 <= i < size => Column(init, i)), w, columns);
    }
  }

  lemma {:induction false} SumZeros(xs: seq<nat>)
    requires forall i | 0 <= i < |xs| :: xs[i] == 0
    ensures Sum(xs) == 0
    decreases |xs|
  {
    if |xs| > 0 {
      SumZeros(xs[..|xs| - 1]);
    }
  }

  lemma {:induction false} SumAdds(xs: seq<nat>, ys: seq<nat>, zs: seq<nat>)
    requires |xs| == |ys| == |zs| && forall i | 0 <= i < |xs| :: zs[i] == xs[i] + ys[i]
    ensures Sum(zs) == Sum(xs) + Sum(ys)
    decreases |xs|
  {
    if |xs| > 0 {
      SumAdds(xs[..|xs| - 1], ys[..|ys| - 1], zs[..|zs| - 1]);
    }
  }

  /** Reducing every element keeps the sum exactly when there is nothing to reduce. */
  lemma {:induction false} SumReduced(xs: seq<nat>, ys: seq<nat>)
    requires |xs| == |ys| && forall i | 0 <= i < |xs| :: ys[i] == Wrap(xs[i])
    ensures Sum(ys) <= Sum(xs)
    ensures Sum(ys) == Sum(xs) <==> forall i | 0 <= i < |xs| :: xs[i] < TWO_64
    decreases |xs|
  {
    if |xs| > 0 {
      var n := |xs| - 1;
      SumReduced(xs[..n], ys[..n]);
      assert ys[n] == Wrap(xs[n]) && Wrap(xs[n]) <= xs[n];
      if xs[n] >= TWO_64 {
        assert ys[n] < xs[n];
      }
      assert forall i | 0 <= i < n :: xs[..n][i] == xs[i];
    }
  }

  /** Under the counter metric, over every run: the reported windows and the open window add up to the
      overall metric if and only if the windows of no entry add up to 2^64 or more. */
  lemma ReportsAddUp(size: nat, ops: seq<Operation>)
    requires InRange(ops, size)
    ensures Reported(Closed(size, ops)) + Sum(After(size, ops).window) == Sum(After(size, ops).total)
       <==> forall i | 0 <= i < size :: Collected(size, ops, i) < TWO_64
  {
    hide After, Closed;
    var s, ws := After(size, ops), Closed(size, ops);
    var columns := seq(size, i requires 0 <= i < size => Column(ws, i));
    var all := seq(size, i requires 0 <= i < size => Collected(size, ops, i));
    ByColumns(ws, size);
    SumAdds(columns, s.window, all);
    forall i | 0 <= i < size
      ensures s.total[i] == Wrap(all[i])
    {
      TotalsConserved(size, ops, i);
    }
    SumReduced(all, s.total);
    assert forall i | 0 <= i < size :: all[i] == Collected(size, ops, i);
  }

  /** All that was given, to any entry. */
  function AllGiven(ops: seq<Operation>): nat
    decreases |ops|
  {
    if |ops| == 0 then 0
    else AllGiven(ops[..|ops| - 1]) + if ops[|ops| - 1].Update? then ops[|ops| - 1].value else 0
  }

  /** While no counter has wrapped, the overall counter metric is everything that was given. */
  lemma {:induction false} OverallIsAllGiven(size: nat, ops: seq<Operation>)
    requires InRange(ops, size)
    requires forall i | 0 <= i < size :: Given(ops, i) < 0x1_0000_0000_0000_0000
    ensures Sum(After(size, ops).total) == AllGiven(ops)
  {
    var given := seq(size, i requires 0 <= i < size => Given(ops, i));
    forall i | 0 <= i < size
      ensures After(size, ops).total[i] == given[i]
    {
      CountersCount(size, ops, i);
    }
    assert After(size, ops).total == given;
    GivenAddsUp(size, ops);
  }

  lemma {:induction false} GivenAddsUp(size: nat, ops: seq<Operation>)
    requires InRange(ops, size)
    ensures Sum(seq(size, i requires 0 <= i < size => Given(ops, i))) == AllGiven(ops)
    decreases |ops|
  {
    var given := seq(size, i requires 0 <= i < size => Given(ops, i));
    if |ops| == 0 {
      SumZeros(given);
    } else {
      var init, o := ops[..|ops| - 1], ops[|ops| - 1];
      assert o in ops;
      GivenAddsUp(size, init);
      var before := seq(size, i requires 0 <= i < size => Given(init, i));
      if o.Update? {
        SumUpdated(before, o.position, o.value);
        assert given == before[o.position := before[o.position] + o.value];
      } else {
        assert given == before;
      }
    }
  }

  lemma {:induction false} SumUpdated(xs: seq<nat>, i: nat, v: nat)
    requires i < |xs|
    ensures Sum(xs[i := xs[i] + v]) == Sum(xs) + v
    decreases |xs|
  {
    var ys, n := xs[i := xs[i] + v], |xs| - 1;
    if i == n {
      assert ys[..n] == xs[..n];
    } else {
      SumUpdated(xs[..n], i, v);
      assert ys[..n] == xs[..n][i := xs[i] + v];
    }
  }

  // ---------- the class ----------

  datatype Metric = Counter | Throughput
  datatype Classifier = ByOperationType | ByOperationContext

  /** A metric over a time in seconds. */
  function Measured(m: Metric, amount: nat, seconds: real): real
    requires m.Throughput? ==> seconds > 0.0
  {
    if m.Throughput? then amount as real / seconds else amount as real
  }

  /** In numbers: a throughput times the microseconds is a million times the amount; a counter is the
      amount itself. */
  predicate Reports(m: Metric, report: real, amount: nat, micros: int) {
    if m.Throughput? then report * micros as real == 1000000.0 * amount as real else report == amount as real
  }

  /** A thousand over two seconds is a throughput of five hundred, and a counter of a thousand. */
  lemma ThousandInTwoSeconds(report: real)
    ensures Reports(Throughput, report, 1000, 2000000) <==> report == 500.0
    ensures Reports(Counter, report, 1000, 2000000) <==> report == 1000.0
  {}

  lemma MeasuredInNumbers(m: Metric, amount: nat, micros: int)
    requires micros > 0
    ensures Reports(m, Measured(m, amount, micros as real / 1000000.0), amount, micros)
  {
    var seconds := micros as real / 1000000.0;
    if m.Throughput? {
      DividedBack(amount as real, seconds, micros as real);
    }
  }

  lemma DividedBack(a: real, seconds: real, micros: real)
    requires seconds > 0.0 && seconds * 1000000.0 == micros
    ensures a / seconds * micros == 1000000.0 * a
  {
    var q := a / seconds;
    assert q * seconds == a;
    assert q * micros == q * seconds * 1000000.0;
  }

  /** A collection reports the open window. */
  lemma ReportedGrows(size: nat, ops: seq<Operation>)
    requires InRange(ops, size)
    ensures InRange(ops + [Collect], size)
    ensures Reported(Closed(size, ops + [Collect])) == Reported(Closed(size, ops)) + Sum(After(size, ops).window)
  {
    assert (ops + [Collect])[..|ops|] == ops;
    var ws, w := Closed(size, ops), After(size, ops).window;
    assert Closed(size, ops + [Collect]) == ws + [w];
    assert (ws + [w])[..|ws|] == ws;
  }

  class Statistics {
    const metric: Metric
    const classifier: Classifier
    const total: array<Word>
    const windowed: array<Word>
    const start: nat
    var last: nat
    var end: nat
    var overallMetric: real
    var lastWindowMetric: real

    /** Everything that happened. */
    ghost var history: seq<Operation>

    ghost predicate Valid()
      reads this, total, windowed
    {
      && total != windowed && total.Length == windowed.Length > 0
      && InRange(history, total.Length)
      && Counters(total[..], windowed[..]) == After(total.Length, history)
      && start <= last
    }

    /** `size` is the number of operations of the context type. */
    constructor (metric: Metric, classifier: Classifier, size: nat, now: nat)
      requires size > 0
      ensures Valid() && history == [] && total.Length == size
      ensures this.metric == metric && this.classifier == classifier
    {
      this.metric, this.classifier := metric, classifier;
      total := new Word[size](_ => 0);
      windowed := new Word[size](_ => 0);
      start, last, end, history := now, now, 0, [];
      overallMetric, lastWindowMetric := -1.0, -1.0;
      new;
      assert total[..] == Zeros(size) && windowed[..] == Zeros(size);
    }

    method UpdateStatisticEntry(operationType: nat, operationContext: nat, value: Word)
      requires Valid()
      modifies this`history, total, windowed
      ensures Valid()
      ensures var operation := if classifier.ByOperationContext? then operationContext else operationType;
        history == old(history) + [Update(operation % total.Length, value)]
    {
      if classifier.ByOperationContext? {
        UpdateEntry(operationContext, value);
      } else {
        UpdateEntry(operationType, value);
      }
    }

    method UpdateEntry(operation: nat, value: Word)
      requires Valid()
      modifies this`history, total, windowed
      ensures Valid() && history == old(history) + [Update(operation % total.Length, value)]
    {
      hide After, Wrap;
      var position := operation % total.Length;
      Extend(total.Length, history, Update(position, value));
      total[position] := Wrap(total[position] + value);
      windowed[position] := Wrap(windowed[position] + value);
      history := history + [Update(position, value)];
    }

    /** The sum of a counter array. */
    method Accumulate(a: array<Word>) returns (sum: nat)
      ensures sum == Sum(a[..])
    {
      sum := 0;
      for i := 0 to a.Length
        invariant sum == Sum(a[..i])
      {
        assert a[..i + 1][..i] == a[..i];
        sum := sum + a[i];
      }
      assert a[..a.Length] == a[..];
    }

    method ResetWindowedCounters()
      requires total != windowed
      modifies windowed
      ensures windowed[..] == Zeros(windowed.Length)
    {
      for i := 0 to windowed.Length
        invariant forall j | 0 <= j < i :: windowed[j] == 0
      {
        windowed[i] := 0;
      }
    }

    /** The metric of all totals, over a time in microseconds. */
    method AggregateTotalCounter(micros: nat) returns (overall: real)
      requires micros > 0
      modifies this`overallMetric
      ensures overall == overallMetric == Measured(metric, Sum(total[..]), micros as real / 1000000.0)
      ensures Reports(metric, overall, Sum(total[..]), micros)
    {
      MeasuredInNumbers(metric, Sum(total[..]), micros);
      hide Measured, Reports;
      var sum := Accumulate(total);
      overallMetric := Measured(metric, sum, micros as real / 1000000.0);
      overall := overallMetric;
    }

    /** The metric of the window, over a time in microseconds. */
    method AggregateWindowedCounter(micros: nat) returns (window: real)
      requires micros > 0
      modifies this`lastWindowMetric
      ensures window == lastWindowMetric == Measured(metric, Sum(windowed[..]), micros as real / 1000000.0)
      ensures Reports(metric, window, Sum(windowed[..]), micros)
    {
      MeasuredInNumbers(metric, Sum(windowed[..]), micros);
      hide Measured, Reports;
      var sum := Accumulate(windowed);
      lastWindowMetric := Measured(metric, sum, micros as real / 1000000.0);
      window := lastWindowMetric;
    }

    /** Reports both metrics and starts a new window. */
    method CollectAggregate(now: nat, later: nat) returns (overall: real, window: real)
      requires Valid() && now > last && later > start
      modifies this`history, this`last, this`end, this`overallMetric, this`lastWindowMetric, windowed
      ensures Valid() && history == old(history) + [Collect] && last == now
      ensures overall == Measured(metric, Sum(old(total[..])), (later - start) as real / 1000000.0)
      ensures window == Measured(metric, Sum(old(windowed[..])), (now - old(last)) as real / 1000000.0)
      ensures Reports(metric, overall, Sum(old(total[..])), later - start)
      ensures Reports(metric, window, Sum(old(windowed[..])), now - old(last))
    {
      hide Measured, Reports, Sum;
      Extend(total.Length, history, Collect);
      overall := AggregateTotalCounter(later - start);
      window := AggregateWindowedCounter(now - last);
      last, end := now, now;
      ResetWindowedCounters();
      history := history + [Collect];
    }

    /** Reports every entry of the window and starts a new one. */
    method CollectDetailed(now: nat) returns (entries: seq<real>)
      requires Valid() && now > last
      modifies this`history, this`last, windowed
      ensures Valid() && history == old(history) + [Collect] && last == now
      ensures |entries| == total.Length
      ensures forall i | 0 <= i < |entries| ::
        entries[i] == Measured(metric, old(windowed[i]), (now - old(last)) as real / 1000000.0)
      ensures forall i | 0 <= i < |entries| :: Reports(metric, entries[i], old(windowed[i]), now - old(last))
    {
      Extend(total.Length, history, Collect);
      forall i | 0 <= i < windowed.Length
        ensures var report := Measured(metric, windowed[i], (now - last) as real / 1000000.0);
          Reports(metric, report, windowed[i], now - last)
      {
        MeasuredInNumbers(metric, windowed[i], now - last);
      }
      hide Measured, Reports;
      var elapsed := (now - last) as real / 1000000.0;
      entries := [];
      for i := 0 to windowed.Length
        invariant |entries| == i
        invariant forall j | 0 <= j < i :: entries[j] == Measured(metric, windowed[j], elapsed)
      {
        entries := entries + [StatisticMetric(windowed[i], elapsed)];
      }
      last := now;
      ResetWindowedCounters();
      history := history + [Collect];
    }

    /** What collections have reported so far and the open window add up to the overall counter metric, if and
        only if no entry's windows add up to 2^64; and the next collection reports the open window. */
    lemma ReportsSoFar()
      requires Valid()
      ensures Reported(Closed(total.Length, history)) + Sum(windowed[..]) == Sum(total[..])
         <==> forall i | 0 <= i < total.Length :: Collected(total.Length, history, i) < 0x1_0000_0000_0000_0000
      ensures InRange(history + [Collect], total.Length)
      ensures Reported(Closed(total.Length, history + [Collect]))
           == Reported(Closed(total.Length, history)) + Sum(windowed[..])
    {
      ReportsAddUp(total.Length, history);
      ReportedGrows(total.Length, history);
    }

    /** An entry of zero is reported as zero without dividing. */
    function StatisticMetric(amount: nat, seconds: real): (r: real)
      requires seconds > 0.0
      ensures r == Measured(metric, amount, seconds)
    {
      if metric.Throughput? then if amount == 0 then 0.0 else amount as real / seconds
      else amount as real
    }
  }

  lemma Extend(size: nat, ops: seq<Operation>, o: Operation)
    requires InRange(ops, size) && (o.Update? ==> o.position < size)
    ensures InRange(ops + [o], size) && After(size, ops + [o]) == Next(After(size, ops), o)
  {
    assert (ops + [o])[..|ops|] == ops;
  }
}
