/** The token bucket's statistics: a ring buffer of the last hundred entries, a garbage collection that
    looks for the first entry inside a sliding window, and a collection that empties the buffer. */
module BucketStatistics {
  import opened Common

  const MAX: nat := 100

  datatype Entry = Entry(emptyBucket: real, tokensLeft: real, stamp: Word)

  /** `total` counts the stores since the last reset, `valid` is the first entry to collect or -1. */
  datatype Ring = Ring(slots: seq<Entry>, total: nat, position: nat, valid: int)

  predicate WellFormed(r: Ring) {
    |r.slots| == MAX && r.position < MAX && -1 <= r.valid < MAX
  }

  // ---------- the operations ----------

  function Store(r: Ring, e: Entry): Ring
    requires WellFormed(r)
  {
    var p := r.total % MAX;
    r.(slots := r.slots[p := e], position := p, total := r.total + 1)
  }

  /** Time passed, as a subtraction of unsigned 64-bit values. */
  function Age(now: Word, e: Entry): nat {
    (now - e.stamp) % TWO_64
  }

  function Fresh(now: Word, window: nat, e: Entry): bool {
    Age(now, e) < window
  }

  /** The first fresh entry from `from` on, or `end`. */
  function FirstFresh(slots: seq<Entry>, from: nat, end: nat, now: Word, window: nat): (i: nat)
    requires from <= end <= |slots|
    ensures from <= i <= end
    ensures i < end ==> Fresh(now, window, slots[i])
    ensures forall j | from <= j < i :: !Fresh(now, window, slots[j])
    decreases end - from
  {
    if from == end || Fresh(now, window, slots[from]) then from else FirstFresh(slots, from + 1, end, now, window)
  }

  function Reset(r: Ring): Ring {
    r.(total := 0, position := 0, valid := -1)
  }

  /** garbage_collection, and the number of discarded entries it reports. */
  function Cleaned(r: Ring, now: Word, window: nat): (Ring, int)
    requires WellFormed(r)
  {
    if r.total == 0 || Age(now, r.slots[r.position]) > window then (Reset(r), 0)
    else if r.total <= MAX then
      var f := FirstFresh(r.slots, 0, r.total, now, window);
      var valid := if f < r.total then f else r.valid;
      (r.(valid := valid), valid)
    else
      var f := FirstFresh(r.slots, 0, r.position, now, window);
      var valid := if f < r.position then f else r.valid;
      if valid == 0 then
        var g := FirstFresh(r.slots, r.position, MAX, now, window);
        (r.(valid := if g < MAX then g else 0), f + (g - r.position))
      else (r.(valid := valid), f + (MAX - r.position))
  }

  /** Collecting starts at `valid`, so with entries and no valid one it would read before the array. */
  predicate Readable(r: Ring) {
    r.total == 0 || 0 <= r.valid
  }

  /** What collect_stats copies out, in order. */
  function Collected(r: Ring): seq<Entry>
    requires WellFormed(r) && Readable(r)
  {
    if r.total == 0 then []
    else if r.total <= MAX then if r.valid < r.total then r.slots[r.valid..r.total] else []
    else if r.position - r.valid >= 0 then r.slots[r.valid..r.position]
    else r.slots[r.valid..] + r.slots[..r.position]
  }

  // ---------- the ring against what was stored ----------

  /** The ring holds the last stores, each in the slot of its number. */
  ghost predicate Holds(r: Ring, stored: seq<Entry>) {
    && WellFormed(r)
    && r.total == |stored|
    && (r.total > 0 ==> r.position == (r.total - 1) % MAX)
    && (forall i | 0 <= i < |stored| && |stored| - MAX <= i :: r.slots[i % MAX] == stored[i])
  }

  lemma StoreHolds(r: Ring, stored: seq<Entry>, e: Entry)
    requires Holds(r, stored)
    ensures Holds(Store(r, e), stored + [e])
  {
    var r', stored' := Store(r, e), stored + [e];
    forall i | 0 <= i < |stored'| && |stored'| - MAX <= i
      ensures r'.slots[i % MAX] == stored'[i]
    {
      if i < |stored| {
        assert i % MAX != r.total % MAX by { Apart(i, r.total); }
        assert r.slots[i % MAX] == stored[i];
      }
    }
  }

  lemma Apart(i: nat, n: nat)
    requires i < n < i + MAX
    ensures i % MAX != n % MAX
  {}

  /** Which entry is marked as valid does not matter to what the ring holds, and a reset one holds nothing. */
  lemma MarkHolds(r: Ring, stored: seq<Entry>)
    requires Holds(r, stored)
    ensures WellFormed(r) && r.total == |stored|
    ensures forall v | -1 <= v < MAX :: Holds(r.(valid := v), stored)
    ensures Holds(Reset(r), [])
  {}

  /** Slot j holds the latest store whose number is j modulo the size. */
  lemma SlotHoldsLatest(r: Ring, stored: seq<Entry>, j: nat)
    requires Holds(r, stored) && j < 100 && j < |stored|
    ensures exists i: nat | i < |stored| ::
      && i % 100 == j && r.slots[j] == stored[i]
      && forall m: nat | m < |stored| && m % 100 == j :: m <= i
  {
    var i := |stored| - 1 - (|stored| - 1 - j) % MAX;
    Latest(|stored|, j, i);
    assert r.slots[i % MAX] == stored[i];
    forall m: nat | m < |stored| && m % MAX == j
      ensures m <= i
    {
      if m > i {
        Apart'(i, m);
      }
    }
  }

  lemma Latest(n: nat, j: nat, i: int)
    requires j < MAX && j < n && i == n - 1 - (n - 1 - j) % MAX
    ensures 0 <= i < n && n - MAX <= i && i % MAX == j
  {
    var q := (n - 1 - j) / MAX;
    assert i == j + MAX * q;
    assert q >= 0;
  }

  lemma Apart'(i: nat, m: nat)
    requires i < m && i % MAX == m % MAX
    ensures m >= i + MAX
  {}

  // ---------- collecting exactly the window ----------

  /** The entries inside the window, in order. */
  function InWindow(es: seq<Entry>, now: Word, window: nat): seq<Entry>
    decreases |es|
  {
    if |es| == 0 then []
    else (if Fresh(now, window, es[0]) then [es[0]] else []) + InWindow(es[1..], now, window)
  }

  /** Stamps never decrease and are not ahead of the clock. */
  ghost predicate Ordered(es: seq<Entry>, now: Word) {
    && (forall i, j | 0 <= i < j < |es| :: es[i].stamp <= es[j].stamp)
    && (forall i | 0 <= i < |es| :: es[i].stamp <= now)
  }

  lemma {:induction false} WindowSplit(a: seq<Entry>, b: seq<Entry>, now: Word, window: nat)
    ensures InWindow(a + b, now, window) == InWindow(a, now, window) + InWindow(b, now, window)
    decreases |a|
  {
    if |a| == 0 {
      assert a + b == b;
    } else {
      assert (a + b)[1..] == a[1..] + b;
      WindowSplit(a[1..], b, now, window);
    }
  }

  lemma {:induction false} NoneInWindow(es: seq<Entry>, now: Word, window: nat)
    requires forall i | 0 <= i < |es| :: !Fresh(now, window, es[i])
    ensures InWindow(es, now, window) == []
    decreases |es|
  {
    if |es| > 0 {
      NoneInWindow(es[1..], now, window);
    }
  }

  lemma {:induction false} AllInWindow(es: seq<Entry>, now: Word, window: nat)
    requires forall i | 0 <= i < |es| :: Fresh(now, window, es[i])
    ensures InWindow(es, now, window) == es
    decreases |es|
  {
    if |es| > 0 {
      AllInWindow(es[1..], now, window);
    }
  }

  lemma YoungerIsFresh(es: seq<Entry>, now: Word, window: nat, i: nat, j: nat)
    requires Ordered(es, now) && i <= j < |es| && Fresh(now, window, es[i])
    ensures Fresh(now, window, es[j])
  {
    assert es[i].stamp <= es[j].stamp;
  }

  /** Entries in order: those in the window are the ones from the first fresh entry on. */
  lemma WindowIsSuffix(es: seq<Entry>, now: Word, window: nat, f: nat)
    requires Ordered(es, now) && f < |es| && Fresh(now, window, es[f])
    requires forall j | 0 <= j < f :: !Fresh(now, window, es[j])
    ensures InWindow(es, now, window) == es[f..]
  {
    assert es == es[..f] + es[f..];
    WindowSplit(es[..f], es[f..], now, window);
    NoneInWindow(es[..f], now, window);
    forall j | 0 <= j < |es[f..]|
      ensures Fresh(now, window, es[f..][j])
    {
      YoungerIsFresh(es, now, window, f, f + j);
    }
    AllInWindow(es[f..], now, window);
  }

  /** Until the buffer wraps, cleaning and then collecting gives exactly the entries inside the window,
      in order, and the reported number is that of the others. */
  lemma ExactUntilWrapped(r: Ring, stored: seq<Entry>, now: Word, window: nat)
    requires Holds(r, stored) && 0 < |stored| <= MAX
    requires Ordered(stored, now) && Fresh(now, window, stored[|stored| - 1])
    ensures var (r', discarded) := Cleaned(r, now, window);
      && Holds(r', stored) && Readable(r')
      && Collected(r') == InWindow(stored, now, window)
      && discarded == |stored| - |InWindow(stored, now, window)|
  {
    var n := |stored|;
    UnwrappedSlots(r, stored);
    MarkHolds(r, stored);
    NewestSlot(r, stored);
    var f := FirstFresh(r.slots, 0, n, now, window);
    assert r.slots[n - 1] == stored[n - 1];
    hide InWindow, Ordered, Holds;
    WindowIsSuffix(stored, now, window, f);
    assert r.slots[f..n] == stored[f..];
  }

  lemma UnwrappedSlots(r: Ring, stored: seq<Entry>)
    requires Holds(r, stored) && |stored| <= MAX
    ensures r.slots[..|stored|] == stored
    ensures forall i | 0 <= i < |stored| :: r.slots[i] == stored[i]
  {
    forall i | 0 <= i < |stored|
      ensures r.slots[i] == stored[i]
    {
      assert r.slots[i % MAX] == stored[i];
    }
  }

  /** The entries a wrapped buffer still holds, oldest first. */
  function Recent(stored: seq<Entry>): seq<Entry> {
    if |stored| <= MAX then stored else stored[|stored| - MAX..]
  }

  lemma {:induction false} WindowAtMost(es: seq<Entry>, now: Word, window: nat)
    ensures |InWindow(es, now, window)| <= |es|
    decreases |es|
  {
    if |es| > 0 {
      WindowAtMost(es[1..], now, window);
    }
  }

  /** The slots up to the newest hold the latest stores. */
  lemma NewestSlots(r: Ring, stored: seq<Entry>, i: nat)
    requires Holds(r, stored) && |stored| > MAX && i <= r.position
    ensures r.slots[i] == stored[|stored| - 1 - r.position + i]
  {
    SlotNumber(|stored|, r.position, i);
    assert r.slots[(|stored| - 1 - r.position + i) % MAX] == stored[|stored| - 1 - r.position + i];
  }

  /** A fresh entry and all that came after it are inside the window. */
  lemma FreshOnwards(stored: seq<Entry>, now: Word, window: nat, first: nat)
    requires Ordered(stored, now) && |stored| - MAX <= first < |stored| && |stored| > MAX
    requires Fresh(now, window, stored[first])
    ensures |InWindow(Recent(stored), now, window)| >= |stored| - first
  {
    var recent, cut := Recent(stored), first - (|stored| - MAX);
    assert recent == recent[..cut] + recent[cut..];
    WindowSplit(recent[..cut], recent[cut..], now, window);
    forall j | 0 <= j < |recent[cut..]|
      ensures Fresh(now, window, recent[cut..][j])
    {
      YoungerIsFresh(stored, now, window, first, first + j);
      assert recent[cut..][j] == stored[first + j];
    }
    AllInWindow(recent[cut..], now, window);
  }

  /** Once it has wrapped, a collection never gives all entries inside the window: it either misses some,
      always the newest, or would start before the array. */
  lemma WrappedMisses(r: Ring, stored: seq<Entry>, now: Word, window: nat)
    requires Holds(r, stored) && |stored| > MAX && r.valid == -1
    requires Ordered(stored, now) && Fresh(now, window, stored[|stored| - 1])
    ensures var r' := Cleaned(r, now, window).0;
      Readable(r') ==> |Collected(r')| < |InWindow(Recent(stored), now, window)|
  {
    hide InWindow, Recent, Ordered;
    var n, p := |stored|, r.position;
    NewestSlots(r, stored, p);
    var f := FirstFresh(r.slots, 0, p, now, window);
    if f < p {
      NewestSlots(r, stored, f);
      SlotNumber(n, p, f);
      FreshOnwards(stored, now, window, n - 1 - p + f);
    }
  }

  lemma SlotNumber(n: nat, p: nat, i: nat)
    requires n > MAX && p == (n - 1) % MAX && i <= p
    ensures (n - 1 - p + i) % MAX == i && n - 1 - p + i >= n - MAX
  {
    var q := (n - 1) / MAX;
    assert n - 1 - p + i == MAX * q + i;
  }

  /** The age of the newest entry. */
  function NewestAge(stored: seq<Entry>, now: Word): nat
    requires |stored| > 0
  {
    Age(now, stored[|stored| - 1])
  }

  lemma NewestSlot(r: Ring, stored: seq<Entry>)
    requires Holds(r, stored) && |stored| > 0
    ensures r.slots[r.position] == stored[|stored| - 1]
  {}

  /** When the newest entry is not inside the window, none is. */
  lemma AllOutdated(stored: seq<Entry>, now: Word, window: nat)
    requires Ordered(stored, now) && |stored| > 0 && NewestAge(stored, now) >= window
    ensures forall i | 0 <= i < |stored| :: !Fresh(now, window, stored[i])
  {
    forall i | 0 <= i < |stored|
      ensures !Fresh(now, window, stored[i])
    {
      if Fresh(now, window, stored[i]) {
        YoungerIsFresh(stored, now, window, i, |stored| - 1);
      }
    }
  }

  // ---------- when a collection reads before the array ----------

  /** A fresh entry lies before the newest one's slot if and only if the entry stored just before the
      newest is fresh and in such a slot. */
  lemma FreshBeforeNewest(r: Ring, stored: seq<Entry>, now: Word, window: nat)
    requires Holds(r, stored) && |stored| > MAX && Ordered(stored, now)
    ensures FirstFresh(r.slots, 0, r.position, now, window) < r.position <==>
      r.position > 0 && Fresh(now, window, stored[|stored| - 2])
  {
    var n, p := |stored|, r.position;
    var f := FirstFresh(r.slots, 0, p, now, window);
    if p > 0 {
      NewestSlots(r, stored, p - 1);
    }
    if f < p {
      NewestSlots(r, stored, f);
      SlotNumber(n, p, f);
      YoungerIsFresh(stored, now, window, n - 1 - p + f, n - 2);
    }
  }

  /** What a caller can check before a report: nothing stored, an entry still marked as valid, a newest
      entry older than the window, or a fresh entry where cleaning looks for one. */
  predicate SafeToReport(valid: int, stored: seq<Entry>, now: Word, window: nat) {
    var n := |stored|;
    || n == 0
    || valid >= 0
    || NewestAge(stored, now) > window
    || (n <= MAX && NewestAge(stored, now) < window)
    || (n > MAX && (n - 1) % MAX > 0 && Fresh(now, window, stored[n - 2]))
  }

  /** A collection after cleaning stays inside the array if and only if it was safe to report. */
  lemma ReadableIffSafe(r: Ring, stored: seq<Entry>, now: Word, window: nat)
    requires Holds(r, stored) && Ordered(stored, now)
    ensures Readable(Cleaned(r, now, window).0) <==> SafeToReport(r.valid, stored, now, window)
  {
    if 0 < |stored| {
      hide Ordered;
      NewestSlot(r, stored);
      if |stored| > MAX {
        FreshBeforeNewest(r, stored, now, window);
      } else {
        UnwrappedSlots(r, stored);
        if NewestAge(stored, now) >= window {
          AllOutdated(stored, now, window);
        }
      }
    }
  }

  /** One entry, exactly as old as the window is long: cleaning drops nothing and marks nothing, and the
      collection would start at slot -1. */
  lemma EdgeReadsBeforeArray(r: Ring)
    requires Holds(r, []) && r.valid == -1
    ensures var r1 := Store(r, Entry(0.0, 0.0, 10));
      Holds(r1, [Entry(0.0, 0.0, 10)]) && !Readable(Cleaned(r1, 15, 5).0)
  {
    var e := Entry(0.0, 0.0, 10);
    var r1 := Store(r, e);
    assert r1.valid == -1 && WellFormed(r1);
    StoreHolds(r, [], e);
    assert [] + [e] == [e];
    assert Age(15, e) == 5;
    hide Holds, Cleaned, Store, Age;
    ReadableIffSafe(r1, [e], 15, 5);
  }

  /** What a wrapped buffer reports, and the number it gives, when some entry stored since slot 0 was last
      filled, before the newest, is fresh.  With `first` the oldest such entry: all from it up to the
      newest, the newest left out, and the slots passed over together with all from the newest's slot
      on; but nothing at all, and zero, when that oldest one is in slot 0. */
  lemma WrappedReport(r: Ring, stored: seq<Entry>, now: Word, window: nat, first: nat)
    requires Holds(r, stored) && |stored| > 100 && r.valid == -1
    requires NewestAge(stored, now) < window
    requires var base := |stored| - 1 - r.position;
      && base <= first < |stored| - 1 && Fresh(now, window, stored[first])
      && forall i | base <= i < first :: !Fresh(now, window, stored[i])
    ensures r.position == (|stored| - 1) % 100
    ensures var base := |stored| - 1 - r.position;
      var (r', discarded) := Cleaned(r, now, window);
      && WellFormed(r') && Readable(r')
      && Collected(r') == (if first == base then [] else stored[first..|stored| - 1])
      && discarded == if first == base then 0 else (first - base) + (100 - r.position)
  {
    var n, p := |stored|, r.position;
    var base := n - 1 - p;
    NewestSlot(r, stored);
    SinceSlotZero(r, stored);
    NewestFresh(stored, now, window);
    assert WellFormed(r) && r.total == n;
    hide Holds, Fresh, Cleaned, Collected, Readable, Age, WellFormed;
    Shifted(r.slots, stored, base, first - base, p);
    forall j | 0 <= j < first - base
      ensures !Fresh(now, window, r.slots[j])
    {
      assert r.slots[j] == stored[base + j];
    }
    SlotReport(r, now, window, first - base);
  }

  lemma Shifted(slots: seq<Entry>, stored: seq<Entry>, base: nat, d: nat, p: nat)
    requires d <= p < |slots| && base + p < |stored|
    requires forall i | 0 <= i <= p :: slots[i] == stored[base + i]
    ensures slots[d..p] == stored[base + d..base + p]
    ensures slots[d] == stored[base + d] && slots[p] == stored[base + p]
  {}

  lemma FirstAt(slots: seq<Entry>, from: nat, end: nat, now: Word, window: nat, i: nat)
    requires from <= i < end <= |slots| && Fresh(now, window, slots[i])
    requires forall j | from <= j < i :: !Fresh(now, window, slots[j])
    ensures FirstFresh(slots, from, end, now, window) == i
  {
    hide Fresh;
  }

  /** The same in terms of slots: d is the first fresh one, and the newest is fresh. */
  lemma SlotReport(r: Ring, now: Word, window: nat, d: nat)
    requires WellFormed(r) && r.total > MAX && r.valid == -1 && d < r.position
    requires Fresh(now, window, r.slots[d]) && Fresh(now, window, r.slots[r.position])
    requires forall j | 0 <= j < d :: !Fresh(now, window, r.slots[j])
    ensures var (r', discarded) := Cleaned(r, now, window);
      && Readable(r')
      && WellFormed(r')
      && Collected(r') == (if d == 0 then [] else r.slots[d..r.position])
      && discarded == if d == 0 then 0 else d + (MAX - r.position)
  {
    FirstAt(r.slots, 0, r.position, now, window, d);
    FirstAt(r.slots, r.position, MAX, now, window, r.position);
  }

  lemma NewestFresh(stored: seq<Entry>, now: Word, window: nat)
    requires |stored| > 0
    ensures Fresh(now, window, stored[|stored| - 1]) <==> NewestAge(stored, now) < window
  {}

  /** The slots up to the newest hold what was stored since slot 0 was last filled. */
  lemma SinceSlotZero(r: Ring, stored: seq<Entry>)
    requires Holds(r, stored) && |stored| > MAX
    ensures r.position == (|stored| - 1) % 100
    ensures forall i | 0 <= i <= r.position :: r.slots[i] == stored[|stored| - 1 - r.position + i]
  {
    forall i | 0 <= i <= r.position
      ensures r.slots[i] == stored[|stored| - 1 - r.position + i]
    {
      NewestSlots(r, stored, i);
    }
  }

  // ---------- when it is exact ----------

  /** Everything stored is outdated, or nothing was overwritten and the newest entry is inside the
      window. */
  predicate ExactReport(stored: seq<Entry>, now: Word, window: nat) {
    |stored| == 0 || NewestAge(stored, now) > window || (|stored| <= MAX && NewestAge(stored, now) < window)
  }

  /** Collections start from a buffer with no entry marked as valid.  Over every content in time order
      such a collection reads the array only and gives exactly what is inside the window, if and only
      if everything is outdated, or the buffer has not wrapped and the newest entry is inside. */
  lemma CollectionExactIff(r: Ring, stored: seq<Entry>, now: Word, window: nat)
    requires Holds(r, stored) && r.valid == -1 && Ordered(stored, now)
    ensures var r' := Cleaned(r, now, window).0;
      (Readable(r') && Collected(r') == InWindow(Recent(stored), now, window)) <==> ExactReport(stored, now, window)
  {
    if |stored| > 0 {
      NewestSlot(r, stored);
      if NewestAge(stored, now) > window {
        AllOutdated(stored, now, window);
        NoneInWindow(Recent(stored), now, window);
      } else if NewestAge(stored, now) == window {
        EdgeUnsafe(r, stored, now, window);
      } else if |stored| <= MAX {
        ExactUntilWrapped(r, stored, now, window);
      } else {
        WrappedMisses(r, stored, now, window);
      }
    }
  }

  lemma EdgeUnsafe(r: Ring, stored: seq<Entry>, now: Word, window: nat)
    requires Holds(r, stored) && r.valid == -1 && Ordered(stored, now)
    requires |stored| > 0 && NewestAge(stored, now) == window
    ensures !Readable(Cleaned(r, now, window).0)
  {
    AllOutdated(stored, now, window);
    ReadableIffSafe(r, stored, now, window);
  }

  // ---------- the class ----------

  class TBStats {
    const statistics: array<Entry>
    var totalStats: nat
    var position: nat
    var validEntryIndex: int

    /** What was stored since the last reset. */
    ghost var stored: seq<Entry>

    function View(): Ring
      reads this, statistics
    {
      Ring(statistics[..], totalStats, position, validEntryIndex)
    }

    ghost predicate Valid()
      reads this, statistics
    {
      Holds(View(), stored)
    }

    constructor ()
      ensures Valid() && stored == [] && validEntryIndex == -1 && fresh(statistics)
    {
      statistics := new Entry[MAX](_ => Entry(0.0, 0.0, 0));
      totalStats, position, validEntryIndex, stored := 0, 0, -1, [];
    }

    method ResetStats()
      modifies this`totalStats, this`position
      ensures totalStats == 0 && position == 0
    {
      totalStats, position := 0, 0;
    }

    method StoreStatsEntry(emptyBucket: real, tokensLeft: real, now: Word)
      requires Valid()
      modifies this`totalStats, this`position, this`stored, statistics
      ensures Valid() && stored == old(stored) + [Entry(emptyBucket, tokensLeft, now)]
      ensures View() == Store(old(View()), Entry(emptyBucket, tokensLeft, now))
    {
      StoreHolds(View(), stored, Entry(emptyBucket, tokensLeft, now));
      position := totalStats % MAX;
      statistics[position] := Entry(emptyBucket, tokensLeft, now);
      totalStats := totalStats + 1;
      stored := stored + [Entry(emptyBucket, tokensLeft, now)];
    }

    /** The first fresh entry of a range: the loops of garbage collection, with what they pass over. */
    method FindFresh(from: nat, to: nat, now: Word, window: nat) returns (i: nat, passed: nat)
      requires from <= to <= statistics.Length
      ensures i == FirstFresh(statistics[..], from, to, now, window) && passed == i - from
    {
      i, passed := from, 0;
      while i < to
        invariant from <= i <= to && passed == i - from
        invariant FirstFresh(statistics[..], i, to, now, window) == FirstFresh(statistics[..], from, to, now, window)
      {
        if Fresh(now, window, statistics[i]) {
          return;
        }
        passed := passed + 1;
        i := i + 1;
      }
    }

    method GarbageCollection(now: Word, window: nat) returns (discarded: int)
      requires Valid()
      modifies this
      ensures Valid()
      ensures (View(), discarded) == Cleaned(old(View()), now, window)
      ensures stored == if totalStats == 0 then [] else old(stored)
    {
      MarkHolds(View(), stored);
      hide Holds, Age, Fresh;
      discarded := 0;
      if totalStats > 0 {
        if Age(now, statistics[position]) > window {
          validEntryIndex := -1;
          ResetStats();
          stored := [];
          discarded := if totalStats <= MAX then totalStats else MAX;
        } else if totalStats <= MAX {
          var i, _ := FindFresh(0, totalStats, now, window);
          if i < totalStats {
            validEntryIndex := i;
          }
          discarded := validEntryIndex;
        } else {
          var i, passed := FindFresh(0, position, now, window);
          if i < position {
            validEntryIndex := i;
          }
          discarded := passed;
          if validEntryIndex == 0 {
            var j, more := FindFresh(position, MAX, now, window);
            if j < MAX {
              validEntryIndex := j;
            }
            discarded := discarded + more;
          } else {
            discarded := discarded + (MAX - position);
          }
        }
      } else {
        ResetStats();
        validEntryIndex := -1;
      }
    }

    /** Copies the slots of a range behind what was copied so far. */
    method CopyEntries(from: nat, to: nat, raw: seq<Entry>) returns (more: seq<Entry>)
      requires to <= statistics.Length
      ensures more == raw + if from <= to then statistics[from..to] else []
    {
      more := raw;
      var i := from;
      while i < to
        invariant from <= i && (from <= to ==> i <= to)
        invariant more == raw + if from <= i <= to then statistics[from..i] else []
      {
        more := more + [statistics[i]];
        i := i + 1;
      }
    }

    method CollectStats() returns (raw: seq<Entry>, copied: nat)
      requires Valid() && Readable(View())
      modifies this
      ensures Valid() && View() == Reset(old(View())) && stored == []
      ensures raw == Collected(old(View())) && copied == |raw|
    {
      raw := [];
      if totalStats > 0 {
        if totalStats <= MAX {
          raw := CopyEntries(validEntryIndex, totalStats, raw);
        } else if position - validEntryIndex >= 0 {
          raw := CopyEntries(validEntryIndex, position, raw);
        } else {
          raw := CopyEntries(validEntryIndex, MAX, raw);
          assert raw == View().slots[validEntryIndex..];
          raw := CopyEntries(0, position, raw);
        }
      }
      copied := |raw|;
      ResetStats();
      stored := [];
      validEntryIndex := -1;
    }

    /** What the bucket does to report: clean, then collect.  The report is exactly what is inside the
        window if and only if `ExactReport` says so. */
    method TryCollect(now: Word, window: nat) returns (raw: seq<Entry>, discarded: int)
      requires Valid()
      requires Ordered(stored, now) ==> SafeToReport(validEntryIndex, stored, now, window)
      requires !Ordered(stored, now) ==> Readable(Cleaned(View(), now, window).0)
      modifies this
      ensures Valid() && stored == [] && validEntryIndex == -1
      ensures raw == Collected(Cleaned(old(View()), now, window).0)
      ensures discarded == Cleaned(old(View()), now, window).1
      ensures Ordered(old(stored), now) && |old(stored)| <= MAX && ExactReport(old(stored), now, window) ==>
        raw == InWindow(old(stored), now, window)
      ensures Ordered(old(stored), now) && old(validEntryIndex) == -1 ==>
        (raw == InWindow(Recent(old(stored)), now, window) <==> ExactReport(old(stored), now, window))
      ensures Ordered(old(stored), now) && 0 < |old(stored)| <= MAX && NewestAge(old(stored), now) < window ==>
        discarded == |old(stored)| - |raw|
    {
      if Ordered(stored, now) {
        ReadableIffSafe(View(), stored, now, window);
        ReportIsExact(View(), stored, now, window);
      }
      discarded := GarbageCollection(now, window);
      var copied: nat;
      raw, copied := CollectStats();
    }
  }

  lemma ReportIsExact(r: Ring, stored: seq<Entry>, now: Word, window: nat)
    requires Holds(r, stored) && Ordered(stored, now) && Readable(Cleaned(r, now, window).0)
    ensures var (r', discarded) := Cleaned(r, now, window);
      && (|stored| <= MAX && ExactReport(stored, now, window) ==> Collected(r') == InWindow(stored, now, window))
      && (r.valid == -1 ==>
            (Collected(r') == InWindow(Recent(stored), now, window) <==> ExactReport(stored, now, window)))
      && (0 < |stored| <= MAX && NewestAge(stored, now) < window ==> discarded == |stored| - |Collected(r')|)
  {
    if r.valid == -1 {
      CollectionExactIff(r, stored, now, window);
    }
    if 0 < |stored| <= MAX {
      NewestSlot(r, stored);
      if NewestAge(stored, now) < window {
        ExactUntilWrapped(r, stored, now, window);
      } else {
        AllOutdated(stored, now, window);
        NoneInWindow(stored, now, window);
      }
    }
  }
}
