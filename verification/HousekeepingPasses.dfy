/** Passes over the housekeeping table: what a successful pass leaves, and what blocks every pass. */
module HousekeepingPasses {
  import opened Common
  import opened Differentiation
  import opened EnforcementObjects
  import opened HousekeepingTables
  import opened Stages
  import opened StageRuns

  /** A pass stops at an error or an exception, and at nothing else. */
  predicate Stops(o: Outcome) {
    o == LogicError || o == Returned(Failed)
  }

  /** A type no object can be created with. */
  predicate BadType(r: Rule) {
    r.operation.CreateObject? && TypeOf(Property(r, 3)).None?
  }

  // ---------- what a pass is ----------

  /** A pass over one identifier executes its rule if it is there and pending. */
  lemma PassOfOne(k: Classification, s: Stage, id: nat, last: Outcome)
    ensures ExecuteRules(k, s, [id], last) ==
      if id in s.table && !s.table[id].enforced then ExecuteRule(k, s, id) else (s, last)
  {
    hide ExecuteRule;
    assert [id][1..] == [];
    assert forall t, o :: ExecuteRules(k, t, [], o) == (t, o);
  }

  /** A pass over two lists is a pass over the first and, unless it stops, one over the second. */
  lemma {:induction false} PassComposes(k: Classification, s: Stage, a: seq<nat>, b: seq<nat>, last: Outcome)
    requires last != LogicError && last != Returned(Failed)
    ensures var (s1, o1) := ExecuteRules(k, s, a, last);
      ExecuteRules(k, s, a + b, last) ==
        if o1 == LogicError || o1 == Returned(Failed) then (s1, o1) else ExecuteRules(k, s1, b, o1)
    decreases |a|
  {
    hide ExecuteRule;
    if |a| == 0 {
      assert a + b == b;
    } else {
      assert (a + b)[1..] == a[1..] + b;
      if a[0] in s.table && !s.table[a[0]].enforced {
        var (s1, o1) := ExecuteRule(k, s, a[0]);
        if !Stops(o1) {
          PassComposes(k, s1, a[1..], b, o1);
        }
      } else {
        PassComposes(k, s, a[1..], b, last);
      }
    }
  }

  /** The outcome so far counts only when nothing in the list is pending. */
  lemma {:induction false} PassIgnoresLast(k: Classification, s: Stage, ids: seq<nat>, l: Outcome, m: Outcome, id: nat)
    requires id in ids && id in s.table && !s.table[id].enforced
    ensures ExecuteRules(k, s, ids, l) == ExecuteRules(k, s, ids, m)
    decreases |ids|
  {
    hide ExecuteRule;
    if !(ids[0] in s.table && !s.table[ids[0]].enforced) {
      PassIgnoresLast(k, s, ids[1..], l, m, id);
    }
  }

  // ---------- what a pass gets done ----------

  /** A pending rule that does not stop the pass is enforced or has an unsupported object type. */
  lemma ExecutedOrSkipped(k: Classification, s: Stage, id: nat)
    requires id in s.table && !s.table[id].enforced && !Stops(ExecuteRule(k, s, id).1)
    ensures var s' := ExecuteRule(k, s, id).0;
      id in s'.table && (s'.table[id].enforced || BadType(s'.table[id]))
  {
    hide ExecuteRule, Created, Creatable, ChannelReached, TypeOf, Property;
    var r := s.table[id];
    if CreateRule(r) {
      AllOrNothing(k, s, id);
    } else {
      ThrowingRule(k, s, id);
    }
  }

  lemma ThrowingRule(k: Classification, s: Stage, id: nat)
    requires id in s.table && !s.table[id].enforced && !CreateRule(s.table[id])
    ensures ExecuteRule(k, s, id) == (s, LogicError)
  {}

  lemma {:induction false} PassApplies(k: Classification, s: Stage, ids: seq<nat>, last: Outcome, id: nat)
    requires id in ids && id in s.table
    requires !Stops(ExecuteRules(k, s, ids, last).1)
    ensures var s' := ExecuteRules(k, s, ids, last).0;
      id in s'.table && (s'.table[id].enforced || BadType(s'.table[id]))
    decreases |ids|
  {
    hide ExecuteRule, BadType;
    var s1 := if ids[0] in s.table && !s.table[ids[0]].enforced then ExecuteRule(k, s, ids[0]).0 else s;
    var o1 := if ids[0] in s.table && !s.table[ids[0]].enforced then ExecuteRule(k, s, ids[0]).1 else last;
    assert ExecuteRules(k, s, ids, last) == ExecuteRules(k, s1, ids[1..], o1);
    ExecuteGrows(k, s, ids[0]);
    if id in ids[1..] {
      PassApplies(k, s1, ids[1..], o1, id);
    } else {
      if !s.table[id].enforced {
        ExecutedOrSkipped(k, s, id);
      }
      PassGrows(k, s1, ids[1..], o1);
      BadTypeKept(s1.table, ExecuteRules(k, s1, ids[1..], o1).0.table, id);
    }
  }

  lemma BadTypeKept(a: Table, b: Table, id: nat)
    requires RulesGrow(a, b) && id in a
    ensures id in b && (BadType(a[id]) <==> BadType(b[id]))
  {
    hide TypeOf;
    assert b[id].(enforced := a[id].enforced) == a[id];
    assert Property(b[id], 3) == Property(a[id], 3);
  }

  lemma PassGrows(k: Classification, s: Stage, ids: seq<nat>, last: Outcome)
    ensures Grows(s, ExecuteRules(k, s, ids, last).0)
  {
    var steps := PassIsRun(k, s, ids, last);
    RunGrows(k, s, steps);
  }

  /** For any order of iteration: if a pass over a table of supported object types returns OK, nothing
      is left pending. */
  lemma NothingLeft(k: Classification, s: Stage, order: seq<nat>)
    requires Covers(order, s.table)
    requires forall id | id in s.table :: !BadType(s.table[id])
    requires ExecuteAll(k, s, order).1 == Returned(OK)
    ensures Pending(ExecuteAll(k, s, order).0.table) == {}
    ensures ExecuteAll(k, s, order).0.table.Keys == s.table.Keys
  {
    hide ExecuteRules, BadType, IndexesGrow;
    var s' := ExecuteAll(k, s, order).0;
    PassGrows(k, s, order, Returned(Failed));
    PassKeys(k, s, order, Returned(Failed));
    forall id | id in s'.table
      ensures s'.table[id].enforced
    {
      PassApplies(k, s, order, Returned(Failed), id);
      BadTypeKept(s.table, s'.table, id);
    }
  }

  lemma {:induction false} PassKeys(k: Classification, s: Stage, ids: seq<nat>, last: Outcome)
    ensures ExecuteRules(k, s, ids, last).0.table.Keys == s.table.Keys
    decreases |ids|
  {
    hide ExecuteRule;
    if |ids| > 0 {
      ExecuteKeys(k, s, ids[0]);
      PassKeys(k, ExecuteRule(k, s, ids[0]).0, ids[1..], ExecuteRule(k, s, ids[0]).1);
      PassKeys(k, s, ids[1..], last);
    }
  }

  lemma ExecuteKeys(k: Classification, s: Stage, id: nat)
    ensures ExecuteRule(k, s, id).0.table.Keys == s.table.Keys
  {
    hide ExecuteRule, Created, Creatable, Unsupported;
    if id in s.table && !s.table[id].enforced && CreateRule(s.table[id]) {
      AllOrNothing(k, s, id);
    } else {
      IdleRule(k, s, id);
    }
  }

  /** A pass with nothing pending changes nothing, and reports an error: its status starts as one. */
  lemma {:induction false} RerunDoesNothing(k: Classification, s: Stage, ids: seq<nat>, last: Outcome)
    requires Pending(s.table) == {}
    ensures ExecuteRules(k, s, ids, last) == (s, last)
    ensures ExecuteAll(k, s, ids) == (s, Returned(Failed))
    decreases |ids|
  {
    if |ids| > 0 {
      assert forall id | id in s.table :: id !in Pending(s.table);
      RerunDoesNothing(k, s, ids[1..], last);
      RerunDoesNothing(k, s, ids[1..], Returned(Failed));
    }
  }

  /** A pass touches only rules that are pending, so no rule is ever applied twice: the stage grows by
      one channel or object for every rule that becomes enforced. */
  lemma PassAddsWhatItEnforces(k: Classification, base: nat, s: Stage, order: seq<nat>)
    requires Inv(k, base, s)
    ensures var s' := ExecuteAll(k, s, order).0;
      && Inv(k, base, s')
      && Population(s') - Population(s) == |EnforcedRules(s'.table)| - |EnforcedRules(s.table)|
  {
    hide ExecuteRules, After;
    var steps := PassIsRun(k, s, order, Returned(Failed));
    RunInv(k, base, s, steps);
  }

  // ---------- what blocks every pass ----------

  /** The rule's channel identifier is not linked to any channel yet. */
  predicate Unlinked(s: Stage, r: Rule) {
    Position(s.linkers, r.channelId) == |s.linkers|
  }

  /** A pending rule that collides with what exists: a channel whose identifier or token is taken, an
      object whose channel has the not-found token or already has the object's token, or an operation
      that is not supported. */
  predicate Hopeless(k: Classification, s: Stage, r: Rule) {
    match r.operation
    case CreateChannel => ChannelToken(k, TupleOf(r)) in s.channels || !Unlinked(s, r)
    case CreateObject => NotFoundChannel(s, r) || TokenTaken(k, s, r)
    case _ => true
  }

  predicate NotFoundChannel(s: Stage, r: Rule) {
    !Unlinked(s, r) && Lookup(s.linkers, r.channelId) == NOT_FOUND
  }

  predicate TokenTaken(k: Classification, s: Stage, r: Rule) {
    && ChannelReached(s, r.channelId)
    && TypeOf(Property(r, 3)).Some?
    && !ObjectTokenFree(s.channels[Lookup(s.linkers, r.channelId)], ObjToken(k, PairOf(r)))
  }

  /** Some channel that identifiers could reach can still be created. */
  ghost predicate ChannelPossible(k: Classification, s: Stage) {
    exists x: Tuple :: ChannelToken(k, x) != NOT_FOUND && ChannelToken(k, x) !in s.channels
  }

  /** An object rule that waits for its channel in vain. */
  ghost predicate Stranded(k: Classification, s: Stage, r: Rule) {
    r.operation.CreateObject? && Unlinked(s, r) && !ChannelPossible(k, s)
  }

  ghost predicate Barred(k: Classification, s: Stage, r: Rule) {
    Hopeless(k, s, r) || Stranded(k, s, r)
  }

  lemma UnlinkedNotReached(s: Stage, r: Rule)
    requires Unlinked(s, r)
    ensures Lookup(s.linkers, r.channelId) == NOT_FOUND
  {}

  lemma BarredStops(k: Classification, s: Stage, id: nat)
    requires id in s.table && !s.table[id].enforced && Barred(k, s, s.table[id])
    ensures ExecuteRule(k, s, id).0 == s && Stops(ExecuteRule(k, s, id).1)
  {
    hide ExecuteRule, Created, ChannelToken, ObjToken, TupleOf, PairOf, Property, Lookup, Position, Find, TypeOf;
    if CreateRule(s.table[id]) {
      AllOrNothing(k, s, id);
      if Unlinked(s, s.table[id]) {
        UnlinkedNotReached(s, s.table[id]);
      }
    } else {
      ThrowingRule(k, s, id);
    }
  }

  lemma HopelessGrows(k: Classification, a: Stage, b: Stage, r: Rule)
    requires Hopeless(k, a, r) && IndexesGrow(a, b)
    ensures Hopeless(k, b, r)
  {
    hide ChannelToken, ObjToken, TupleOf, PairOf, Lookup, Position, Find, TypeOf, Property;
    if CreateRule(r) {
      if !Unlinked(a, r) {
        LookupGrows(a.linkers, b.linkers, r.channelId);
      }
      if r.operation.CreateObject? && TokenTaken(k, a, r) {
        var token := Lookup(a.linkers, r.channelId);
        FoundLookup(a.linkers, r.channelId);
        TakenGrows(a.channels[token], b.channels[token], ObjToken(k, PairOf(r)));
      }
    }
  }

  lemma TakenGrows(a: Channel, b: Channel, token: Token)
    requires ChannelGrows(a, b) && !ObjectTokenFree(a, token)
    ensures !ObjectTokenFree(b, token)
  {
    FindIs(b.objects.entries, token, Find(a.objects.entries, token));
  }

  /** A step links at most one channel, whose token was free. */
  ghost predicate LinksFree(k: Classification, a: Stage, b: Stage) {
    b.linkers == a.linkers ||
    exists id: int, x: Tuple ::
      b.linkers == a.linkers + [Linker(id, ChannelToken(k, x))] && ChannelToken(k, x) !in a.channels
  }

  lemma StepLinks(k: Classification, s: Stage, e: Step)
    ensures LinksFree(k, s, Next(k, s, e))
  {
    hide ExecuteRule, Employ, EnforceRequest, ControlTarget, ChannelToken, Passed, Unsupported, ConfigStatus,
         Remembering, Lookup, Position, Property, WithObject;
    match e {
      case InsertRule(_, _, _, _, _) =>
      case Execute(id) =>
        if id in s.table && !s.table[id].enforced && CreateRule(s.table[id]) {
          AllOrNothing(k, s, id);
          var r := s.table[id];
          if Creatable(k, s, r) && r.operation.CreateChannel? {
            var x := TupleOf(r);
            assert Next(k, s, e).linkers == s.linkers + [Linker(r.channelId, ChannelToken(k, x))];
          }
        } else {
          IdleRule(k, s, id);
        }
      case EmployRule(channelId, objectId, c) => EmployMeans(s, channelId, objectId, c);
      case Request(c, buffer, r) => RequestPasses(k, s, c, buffer, r);
    }
  }

  /** A stranded rule stays stranded, or its identifier goes to a channel with the not-found token. */
  lemma StrandedStays(k: Classification, a: Stage, b: Stage, r: Rule)
    requires Stranded(k, a, r) && IndexesGrow(a, b) && LinksFree(k, a, b)
    ensures Barred(k, b, r)
  {
    hide ChannelToken, ObjToken, Position, ChannelGrows;
    if b.linkers != a.linkers {
      var id: int, x: Tuple :|
        b.linkers == a.linkers + [Linker(id, ChannelToken(k, x))] && ChannelToken(k, x) !in a.channels;
      PositionIs(b.linkers, r.channelId, if id == r.channelId then |a.linkers| else |b.linkers|);
    }
  }

  /** Pending and barred: there to stay. */
  ghost predicate Blocking(k: Classification, s: Stage, id: nat) {
    id in s.table && !s.table[id].enforced && Barred(k, s, s.table[id])
  }

  lemma StepBlocking(k: Classification, s: Stage, e: Step, id: nat)
    requires Blocking(k, s, id)
    ensures Blocking(k, Next(k, s, e), id)
  {
    hide Hopeless, Stranded, IndexesGrow, LinksFree, Next;
    if e == Execute(id) {
      BarredStops(k, s, id);
      ExecuteIsNext(k, s, id);
    } else {
      StepGrows(k, s, e);
      StepLeavesRule(k, s, e, id);
      StepLinks(k, s, e);
      if Hopeless(k, s, s.table[id]) {
        HopelessGrows(k, s, Next(k, s, e), s.table[id]);
      } else {
        StrandedStays(k, s, Next(k, s, e), s.table[id]);
      }
    }
  }

  lemma ExecuteIsNext(k: Classification, s: Stage, id: nat)
    ensures Next(k, s, Execute(id)) == ExecuteRule(k, s, id).0
  {
    hide ExecuteRule;
  }

  /** Only its own execution changes a rule. */
  lemma StepLeavesRule(k: Classification, s: Stage, e: Step, id: nat)
    requires id in s.table && e != Execute(id)
    ensures id in Next(k, s, e).table && Next(k, s, e).table[id] == s.table[id]
  {
    hide ExecuteRule, Employ, EnforceRequest, Created, Creatable, ControlTarget, ChannelToken, Passed, Unsupported,
         ConfigStatus, Remembering;
    match e {
      case InsertRule(_, _, _, _, _) =>
      case Execute(other) =>
        if other in s.table && !s.table[other].enforced && CreateRule(s.table[other]) {
          AllOrNothing(k, s, other);
        } else {
          IdleRule(k, s, other);
        }
      case EmployRule(channelId, objectId, c) => EmployMeans(s, channelId, objectId, c);
      case Request(c, buffer, r) => RequestPasses(k, s, c, buffer, r);
    }
  }

  lemma {:induction false} RunBlocking(k: Classification, s: Stage, steps: seq<Step>, id: nat)
    requires Blocking(k, s, id)
    ensures Blocking(k, After(k, s, steps), id)
    decreases |steps|
  {
    hide Blocking, Next;
    if |steps| > 0 {
      StepBlocking(k, s, steps[0], id);
      RunBlocking(k, Next(k, s, steps[0]), steps[1..], id);
    }
  }

  lemma {:induction false} PassBlocked(k: Classification, s: Stage, ids: seq<nat>, last: Outcome, id: nat)
    requires Blocking(k, s, id) && id in ids
    ensures Stops(ExecuteRules(k, s, ids, last).1)
    decreases |ids|
  {
    hide ExecuteRule, Hopeless, Stranded;
    if ids[0] == id {
      BarredStops(k, s, id);
    } else if ids[0] in s.table && !s.table[ids[0]].enforced {
      StepBlocking(k, s, Execute(ids[0]), id);
      var (s', o) := ExecuteRule(k, s, ids[0]);
      if !Stops(o) {
        PassBlocked(k, s', ids[1..], o, id);
      }
    } else {
      PassBlocked(k, s, ids[1..], last, id);
    }
  }

  /** One barred rule makes every later pass fail, in any order of iteration and after any run. */
  lemma BlockedForEver(k: Classification, s: Stage, steps: seq<Step>, id: nat, order: seq<nat>)
    requires Blocking(k, s, id)
    requires Covers(order, After(k, s, steps).table)
    ensures Stops(ExecuteAll(k, After(k, s, steps), order).1)
  {
    hide After, ExecuteRules;
    RunBlocking(k, s, steps, id);
    PassBlocked(k, After(k, s, steps), order, Returned(Failed), id);
  }

  // ---------- and nothing else does ----------

  /** An object rule that is neither barred nor short of a channel has its channel. */
  lemma LinkedIsReached(s: Stage, r: Rule)
    requires Consistent(s) && !Unlinked(s, r) && Lookup(s.linkers, r.channelId) != NOT_FOUND
    ensures ChannelReached(s, r.channelId)
  {
    hide Parallel, DistinctLinkers;
  }

  lemma NewRuleId(t: Table) returns (n: nat)
    ensures n !in t
  {
    n := AboveAll(t.Keys);
  }

  lemma AboveAll(ids: set<nat>) returns (n: nat)
    ensures forall i | i in ids :: i < n
    decreases |ids|
  {
    if ids == {} {
      n := 0;
    } else {
      var i :| i in ids;
      var m := AboveAll(ids - {i});
      n := if m <= i then i + 1 else m;
      forall j | j in ids
        ensures j < n
      {
        assert j == i || j in ids - {i};
      }
    }
  }

  function PropertiesFor(x: Tuple): seq<int> {
    [0, x.workflow, x.opType, x.context]
  }

  /** The two steps that give an identifier its channel. */
  lemma LinkChannel(k: Classification, s: Stage, channelId: int, x: Tuple) returns (steps: seq<Step>)
    requires ChannelToken(k, x) !in s.channels && Position(s.linkers, channelId) == |s.linkers|
    ensures After(k, s, steps).linkers == s.linkers + [Linker(channelId, ChannelToken(k, x))]
    ensures After(k, s, steps).channels == s.channels[ChannelToken(k, x) := NO_OBJECTS]
    ensures forall id | id in s.table :: id in After(k, s, steps).table && After(k, s, steps).table[id] == s.table[id]
  {
    var n := NewRuleId(s.table);
    var e := InsertRule(n, CreateChannel, channelId, -1, PropertiesFor(x));
    var s1 := Next(k, s, e);
    var r := Rule(CreateChannel, channelId, -1, PropertiesFor(x), false);
    steps := [e, Execute(n)];
    assert TupleOf(r) == x;
    assert s1 == s.(table := s.table[n := r]);
    hide ExecuteRule, ChannelToken, Position, TupleOf, Next, After;
    AllOrNothing(k, s1, n);
    ExecuteIsNext(k, s1, n);
    TwoSteps(k, s, e, Execute(n));
  }

  /** A rule for a no-op object. */
  function ObjectRule(channelId: int, id: int, p: Pair): Rule {
    Rule(CreateObject, channelId, id, [0, p.opType, p.context, 0], false)
  }

  lemma NoopRuleMeans(channelId: int, id: int, p: Pair)
    ensures var r := ObjectRule(channelId, id, p);
      PairOf(r) == p && TypeOf(Property(r, 3)) == Some(Noop) && PropertiesFrom(r, 4) == []
  {}

  /** The two steps that put an object into a channel that has its token free. */
  lemma LinkObject(k: Classification, s: Stage, channelId: int, id: int, p: Pair) returns (steps: seq<Step>, n: nat)
    requires ChannelReached(s, channelId)
    requires ObjectTokenFree(s.channels[Lookup(s.linkers, channelId)], ObjToken(k, p))
    ensures var s', token := After(k, s, steps), Lookup(s.linkers, channelId);
      && s'.linkers == s.linkers
      && s'.channels ==
           s.channels[token := WithObject(s.channels[token], id, ObjToken(k, p), NewObject(Noop, id, []))]
      && n in s'.table && s'.table[n] == ObjectRule(channelId, id, p).(enforced := true)
  {
    n := NewRuleId(s.table);
    var r := ObjectRule(channelId, id, p);
    var e := InsertRule(n, CreateObject, channelId, id, r.properties);
    var s1 := Next(k, s, e);
    assert s1 == s.(table := s.table[n := r]);
    steps := [e, Execute(n)];
    NoopRuleMeans(channelId, id, p);
    hide ObjToken, ExecuteRule, Lookup, Find, TypeOf, Property, PropertiesFrom, PairOf, Next, After, NewObject,
         WithObject;
    AllOrNothing(k, s1, n);
    ExecuteIsNext(k, s1, n);
    TwoSteps(k, s, e, Execute(n));
  }

  lemma TwoSteps(k: Classification, s: Stage, d: Step, e: Step)
    ensures After(k, s, [d, e]) == Next(k, Next(k, s, d), e)
  {
    hide Next;
    assert [d, e][1..] == [e] && [e][1..] == [];
    assert After(k, Next(k, s, d), [e]) == Next(k, Next(k, s, d), e);
  }

  /** A pending rule that is not barred can be brought to where it does not stop a pass, and with a
      supported type to where it is carried out. */
  lemma NotBarredOpens(k: Classification, s: Stage, id: nat) returns (steps: seq<Step>)
    requires Consistent(s) && id in s.table && !s.table[id].enforced && !Barred(k, s, s.table[id])
    ensures id in After(k, s, steps).table && After(k, s, steps).table[id] == s.table[id] && CreateRule(s.table[id])
    ensures Creatable(k, After(k, s, steps), s.table[id]) || Unsupported(After(k, s, steps), s.table[id])
  {
    hide ChannelToken, ObjToken, TupleOf, PairOf, Property, Find, TypeOf, Position, Consistent, Lookup;
    var r := s.table[id];
    steps := [];
    if r.operation.CreateObject? && Unlinked(s, r) {
      var x: Tuple :| ChannelToken(k, x) != NOT_FOUND && ChannelToken(k, x) !in s.channels;
      steps := LinkChannel(k, s, r.channelId, x);
      NowReached(k, s, After(k, s, steps), r, x);
    } else if r.operation.CreateObject? {
      LinkedIsReached(s, r);
    }
  }

  lemma NowReached(k: Classification, s: Stage, s': Stage, r: Rule, x: Tuple)
    requires Unlinked(s, r) && ChannelToken(k, x) != NOT_FOUND
    requires s'.linkers == s.linkers + [Linker(r.channelId, ChannelToken(k, x))]
    requires s'.channels == s.channels[ChannelToken(k, x) := NO_OBJECTS]
    ensures ChannelReached(s', r.channelId)
    ensures ObjectTokenFree(s'.channels[Lookup(s'.linkers, r.channelId)], ObjToken(k, PairOf(r)))
  {
    hide ChannelToken, ObjToken;
    PositionIs(s'.linkers, r.channelId, |s.linkers|);
  }

  /** A pending rule stops every later pass that comes to it if and only if it is barred. */
  lemma StopsForEverIffBarred(k: Classification, s: Stage, id: nat)
    requires Consistent(s) && id in s.table && !s.table[id].enforced
    ensures (forall steps :: Stops(ExecuteRule(k, After(k, s, steps), id).1)) <==> Barred(k, s, s.table[id])
  {
    hide After, ExecuteRule, Hopeless, Stranded, Creatable, Created, ChannelReached, Consistent;
    if Barred(k, s, s.table[id]) {
      forall steps
        ensures Stops(ExecuteRule(k, After(k, s, steps), id).1)
      {
        RunBlocking(k, s, steps, id);
        BarredStops(k, After(k, s, steps), id);
      }
    } else {
      var steps := NotBarredOpens(k, s, id);
      AllOrNothing(k, After(k, s, steps), id);
      assert !Stops(ExecuteRule(k, After(k, s, steps), id).1);
    }
  }

  lemma {:induction false} BadTypeNeverEnforced(k: Classification, s: Stage, steps: seq<Step>, id: nat)
    requires id in s.table && !s.table[id].enforced && BadType(s.table[id])
    ensures var t := After(k, s, steps).table; id in t && !t[id].enforced
    decreases |steps|
  {
    hide Next, BadType;
    if |steps| > 0 {
      if steps[0] == Execute(id) {
        BadTypeIdle(k, s, id);
      } else {
        StepLeavesRule(k, s, steps[0], id);
      }
      BadTypeNeverEnforced(k, Next(k, s, steps[0]), steps[1..], id);
    }
  }

  lemma BadTypeIdle(k: Classification, s: Stage, id: nat)
    requires id in s.table && !s.table[id].enforced && BadType(s.table[id])
    ensures Next(k, s, Execute(id)) == s
  {
    hide ExecuteRule, TypeOf, Property, ChannelReached, Created;
    AllOrNothing(k, s, id);
    ExecuteIsNext(k, s, id);
  }

  ghost predicate EnforcedAfter(k: Classification, s: Stage, steps: seq<Step>, id: nat) {
    var t := After(k, s, steps).table;
    id in t && t[id].enforced
  }

  /** A pending rule can still be carried out, by some run, if and only if it is not barred and does not
      ask for an unsupported type. */
  lemma CarriedOutIffNotBarred(k: Classification, s: Stage, id: nat)
    requires Consistent(s) && id in s.table && !s.table[id].enforced
    ensures (exists steps :: EnforcedAfter(k, s, steps, id)) <==>
      !Barred(k, s, s.table[id]) && !BadType(s.table[id])
  {
    hide After, ExecuteRule, Barred, Creatable, Created, ChannelReached, Consistent, Next, TypeOf, Property;
    var r := s.table[id];
    if Barred(k, s, r) {
      forall steps
        ensures !EnforcedAfter(k, s, steps, id)
      {
        RunBlocking(k, s, steps, id);
      }
    } else if BadType(r) {
      forall steps
        ensures !EnforcedAfter(k, s, steps, id)
      {
        BadTypeNeverEnforced(k, s, steps, id);
      }
    } else {
      var steps := NotBarredOpens(k, s, id);
      var s' := After(k, s, steps);
      AllOrNothing(k, s', id);
      ExecuteIsNext(k, s', id);
      OneMore(k, s, steps, Execute(id));
      assert EnforcedAfter(k, s, steps + [Execute(id)], id);
    }
  }

  lemma OneMore(k: Classification, s: Stage, steps: seq<Step>, e: Step)
    ensures After(k, s, steps + [e]) == Next(k, After(k, s, steps), e)
  {
    hide Next;
    AfterAppend(k, s, steps, [e]);
    assert [e][1..] == [];
  }
}
