/** The counters of the housekeeping table under many threads.  Rules change under a lock, but an
    insertion counts its rule only after it lets go of the lock. */
module TableCounters {
  import opened HousekeepingTables

  /** An inserting thread after it let go of the lock: no counter incremented yet, or only the first. */
  datatype Progress = Uncounted | HalfCounted

  /** `born` counts the rules that were already enforced when a copy of them was inserted. */
  datatype State = State(
    table: Table, numberOfRules: int, leftToEmploy: int, inserters: map<nat, Progress>, born: nat)

  const EMPTY := State(map[], 0, 0, map[], 0)

  datatype Step =
    | InsertAndUnlock(thread: nat, id: nat, rule: Rule)
    | IncrementRules(thread: nat)
    | IncrementLeft(thread: nat)
    | MarkEnforced(id: nat)
    | RemoveRule(id: nat)

  predicate Enabled(s: State, e: Step) {
    match e
    case InsertAndUnlock(th, _, _) => th !in s.inserters
    case IncrementRules(th) => th in s.inserters && s.inserters[th].Uncounted?
    case IncrementLeft(th) => th in s.inserters && s.inserters[th].HalfCounted?
    case _ => true
  }

  function Next(s: State, e: Step): State
    requires Enabled(s, e)
  {
    match e
    case InsertAndUnlock(th, id, rule) =>
      if id in s.table then s
      else
        s.(table := Insert(s.table, id, rule).0,
           inserters := s.inserters[th := Uncounted],
           born := s.born + if rule.enforced then 1 else 0)
    case IncrementRules(th) =>
      s.(numberOfRules := s.numberOfRules + 1, inserters := s.inserters[th := HalfCounted])
    case IncrementLeft(th) =>
      s.(leftToEmploy := s.leftToEmploy + 1, inserters := s.inserters - {th})
    case MarkEnforced(id) =>
      s.(table := Mark(s.table, id).0,
         leftToEmploy := s.leftToEmploy - if Mark(s.table, id).1.OK? then 1 else 0)
    case RemoveRule(id) =>
      if id !in s.table then s
      else
        s.(table := s.table - {id},
           numberOfRules := s.numberOfRules - 1,
           leftToEmploy := s.leftToEmploy - if s.table[id].enforced then 0 else 1)
  }

  predicate CanRun(s: State, steps: seq<Step>)
    decreases |steps|, 0
  {
    |steps| == 0 ||
    (CanRun(s, steps[..|steps| - 1]) && Enabled(After(s, steps[..|steps| - 1]), steps[|steps| - 1]))
  }

  function After(s: State, steps: seq<Step>): State
    requires CanRun(s, steps)
    decreases |steps|, 1
  {
    if |steps| == 0 then s else Next(After(s, steps[..|steps| - 1]), steps[|steps| - 1])
  }

  /** Inserters before their first increment, and before their second. */
  function BeforeFirst(s: State): set<nat> {
    set th | th in s.inserters && s.inserters[th].Uncounted?
  }

  function BeforeSecond(s: State): set<nat> {
    s.inserters.Keys
  }

  /** Table size = rule counter + inserters before their first increment; pending rules = left counter
      + inserters before their second, less the rules that came in enforced. */
  ghost predicate Accounted(s: State) {
    && |s.table| == s.numberOfRules + |BeforeFirst(s)|
    && |Pending(s.table)| + s.born == s.leftToEmploy + |BeforeSecond(s)|
  }

  lemma InsertAccounted(s: State, th: nat, id: nat, r: Rule)
    requires Accounted(s) && th !in s.inserters
    ensures Accounted(Next(s, InsertAndUnlock(th, id, r)))
  {
    if id !in s.table {
      var s' := Next(s, InsertAndUnlock(th, id, r));
      InserterAdded(s, s', th);
      hide Pending, BeforeFirst, BeforeSecond;
      InsertCounts(s.table, id, r);
    }
  }

  lemma InserterAdded(s: State, s': State, th: nat)
    requires th !in s.inserters && s'.inserters == s.inserters[th := Uncounted]
    ensures |BeforeFirst(s')| == |BeforeFirst(s)| + 1 && |BeforeSecond(s')| == |BeforeSecond(s)| + 1
  {
    FirstAdded(s, s', th);
    assert BeforeSecond(s') == BeforeSecond(s) + {th};
    hide BeforeFirst;
  }

  lemma FirstAdded(s: State, s': State, th: nat)
    requires th !in s.inserters && s'.inserters == s.inserters[th := Uncounted]
    ensures BeforeFirst(s') == BeforeFirst(s) + {th} && th !in BeforeFirst(s)
  {}

  lemma StepAccounted(s: State, e: Step)
    requires Accounted(s) && Enabled(s, e)
    ensures Accounted(Next(s, e))
  {
    var s' := Next(s, e);
    match e {
      case InsertAndUnlock(th, id, rule) =>
        InsertAccounted(s, th, id, rule);
      case IncrementRules(th) =>
        assert BeforeFirst(s') == BeforeFirst(s) - {th};
        assert BeforeSecond(s') == BeforeSecond(s);
      case IncrementLeft(th) =>
        assert BeforeFirst(s') == BeforeFirst(s);
        assert BeforeSecond(s') == BeforeSecond(s) - {th};
      case MarkEnforced(id) =>
        if id in s.table && !s.table[id].enforced {
          MarkCounts(s.table, id);
        }
      case RemoveRule(id) =>
        if id in s.table {
          RemoveCounts(s.table, id);
        }
    }
  }

  /** An insertion that is not interleaved, and the two one-step operations, are the calls of the table. */
  lemma StepsAreCalls(s: State, th: nat, id: nat, r: Rule)
    requires th !in s.inserters
    ensures id !in s.table ==>
      var inserted := Next(s, InsertAndUnlock(th, id, r));
      Enabled(inserted, IncrementRules(th)) &&
      var half := Next(inserted, IncrementRules(th));
      Enabled(half, IncrementLeft(th)) &&
      var t := Next(half, IncrementLeft(th));
      && t.table == s.table[id := r] && t.inserters == s.inserters
      && t.numberOfRules == s.numberOfRules + 1 && t.leftToEmploy == s.leftToEmploy + 1
    ensures id in s.table ==> Next(s, InsertAndUnlock(th, id, r)) == s
    ensures id !in s.table ==> Next(s, MarkEnforced(id)) == s && Next(s, RemoveRule(id)) == s
    ensures id in s.table && s.table[id].enforced ==>
      && Next(s, MarkEnforced(id)) == s
      && Next(s, RemoveRule(id)) == s.(table := s.table - {id}, numberOfRules := s.numberOfRules - 1)
    ensures id in s.table && !s.table[id].enforced ==>
      && Next(s, MarkEnforced(id)) ==
           s.(table := s.table[id := s.table[id].(enforced := true)], leftToEmploy := s.leftToEmploy - 1)
      && Next(s, RemoveRule(id)) ==
           s.(table := s.table - {id}, numberOfRules := s.numberOfRules - 1, leftToEmploy := s.leftToEmploy - 1)
  {
    if id !in s.table {
      var t := Next(Next(Next(s, InsertAndUnlock(th, id, r)), IncrementRules(th)), IncrementLeft(th));
      assert t.inserters == s.inserters;
    }
  }

  /** In every state that inserters, markers and removers can reach. */
  lemma {:induction false} RunAccounted(steps: seq<Step>)
    requires CanRun(EMPTY, steps)
    ensures Accounted(After(EMPTY, steps))
    decreases |steps|
  {
    if |steps| > 0 {
      RunAccounted(steps[..|steps| - 1]);
      StepAccounted(After(EMPTY, steps[..|steps| - 1]), steps[|steps| - 1]);
    }
  }

  /** With no insertion halfway the rule counter is exact, and the left counter is exact if and only
      if no copy of an enforced rule was ever inserted. */
  lemma CountersWhenQuiet(steps: seq<Step>)
    requires CanRun(EMPTY, steps) && After(EMPTY, steps).inserters == map[]
    ensures var s := After(EMPTY, steps);
      && s.numberOfRules == |s.table|
      && (s.leftToEmploy == |Pending(s.table)| <==> s.born == 0)
  {
    RunAccounted(steps);
    var s := After(EMPTY, steps);
    assert BeforeFirst(s) == {} && BeforeSecond(s) == {};
  }

  /** The counters never exceed the truth, and never fall behind it by more than the inserters on
      their way. */
  lemma CountersLag(steps: seq<Step>)
    requires CanRun(EMPTY, steps)
    ensures var s := After(EMPTY, steps);
      && |s.table| - |s.inserters| <= s.numberOfRules <= |s.table|
      && |Pending(s.table)| - |s.inserters| <= s.leftToEmploy <= |Pending(s.table)| + s.born
  {
    RunAccounted(steps);
    var s := After(EMPTY, steps);
    assert BeforeFirst(s) <= s.inserters.Keys;
    Smaller(BeforeFirst(s), s.inserters.Keys);
    assert |s.inserters.Keys| == |s.inserters|;
  }

  lemma Smaller(a: set<nat>, b: set<nat>)
    requires a <= b
    ensures |a| <= |b|
  {
    assert b == a + (b - a);
  }

  /** A rule enforced before its inserter has counted it makes the left counter negative. */
  lemma LeftCanGoNegative(thread: nat, id: nat, r: Rule) returns (steps: seq<Step>)
    requires !r.enforced
    ensures CanRun(EMPTY, steps) && After(EMPTY, steps).leftToEmploy == -1
  {
    steps := [InsertAndUnlock(thread, id, r), MarkEnforced(id)];
    assert steps[..1] == [InsertAndUnlock(thread, id, r)] && steps[..1][..0] == [];
    assert CanRun(EMPTY, steps[..1]);
  }
}
