/** What holds of a stage over whole runs: its indexes stay consistent and only grow, and every enforced
    rule stays in effect and is counted once. */
module StageRuns {
  import opened Common
  import opened Requests
  import opened Differentiation
  import opened EnforcementObjects
  import opened HousekeepingTables
  import opened Stages

  // ---------- consistency ----------

  lemma WithChannelDistinct(s: Stage, id: int, token: Token)
    requires Consistent(s) && token !in s.channels && Position(s.linkers, id) == |s.linkers|
    ensures DistinctLinkers(s.linkers + [Linker(id, token)])
  {
    hide Position, Parallel;
  }

  lemma WithChannelLinked(s: Stage, id: int, token: Token)
    requires AllLinked(s)
    ensures AllLinked(WithChannel(s, id, token))
  {
    var s' := WithChannel(s, id, token);
    assert s'.linkers[|s.linkers|] == Linker(id, token);
    forall t | t in s'.channels
      ensures exists i | 0 <= i < |s'.linkers| :: s'.linkers[i].token == t
    {
      if t != token {
        var i :| 0 <= i < |s.linkers| && s.linkers[i].token == t;
        assert s'.linkers[i].token == t;
      }
    }
  }

  lemma WithChannelConsistent(s: Stage, id: int, token: Token)
    requires Consistent(s) && token !in s.channels && Position(s.linkers, id) == |s.linkers|
    ensures Consistent(WithChannel(s, id, token))
  {
    WithChannelDistinct(s, id, token);
    WithChannelLinked(s, id, token);
    assert Parallel(NO_OBJECTS);
    hide Position, DistinctLinkers, Parallel, AllLinked;
  }

  lemma UpdateConsistent(s: Stage, token: Token, ch: Channel)
    requires Consistent(s) && token in s.channels && Parallel(ch)
    ensures Consistent(s.(channels := s.channels[token := ch]))
  {
    hide Parallel, DistinctLinkers;
  }

  /** A rule that is missing, done or not a create rule has no effect. */
  lemma IdleRule(k: Classification, s: Stage, id: nat)
    requires !(id in s.table && !s.table[id].enforced && CreateRule(s.table[id]))
    ensures ExecuteRule(k, s, id).0 == s
  {}

  lemma CreatedConsistent(k: Classification, s: Stage, r: Rule)
    requires Consistent(s) && Creatable(k, s, r)
    ensures Consistent(Created(k, s, r))
  {
    hide ChannelToken, ObjToken, TupleOf, PairOf, Property, PropertiesFrom, Lookup, Find, TypeOf, Parallel, Position,
         WithObject, Consistent, WithChannel;
    if r.operation.CreateChannel? {
      WithChannelConsistent(s, r.channelId, ChannelToken(k, TupleOf(r)));
    } else {
      var token := Lookup(s.linkers, r.channelId);
      var o := NewObject(TypeOf(Property(r, 3)).value, r.objectId, PropertiesFrom(r, 4));
      ParallelAt(s, token);
      WithObjectParallel(s.channels[token], ObjToken(k, PairOf(r)), o);
      UpdateConsistent(s, token, WithObject(s.channels[token], r.objectId, ObjToken(k, PairOf(r)), o));
    }
  }

  lemma ParallelAt(s: Stage, token: Token)
    requires Consistent(s) && token in s.channels
    ensures Parallel(s.channels[token])
  {
    hide Parallel, DistinctLinkers;
  }

  lemma TableConsistent(s: Stage, t: Table)
    requires Consistent(s)
    ensures Consistent(s.(table := t))
  {
    hide Parallel, DistinctLinkers;
  }

  lemma StepConsistent(k: Classification, s: Stage, e: Step)
    requires Consistent(s)
    ensures Consistent(Next(k, s, e))
  {
    hide Consistent, ExecuteRule, Employ, EnforceRequest, Created, Creatable, ControlTarget, DataTarget, Remembering,
         ChannelToken, Parallel;
    match e {
      case InsertRule(id, operation, channelId, objectId, properties) =>
        TableConsistent(s, Next(k, s, e).table);
      case Execute(id) => ExecuteConsistent(k, s, id);
      case EmployRule(channelId, objectId, c) => EmployConsistent(s, channelId, objectId, c);
      case Request(c, buffer, r) => RequestConsistent(k, s, c, buffer, r);
    }
  }

  lemma ExecuteConsistent(k: Classification, s: Stage, id: nat)
    requires Consistent(s)
    ensures Consistent(ExecuteRule(k, s, id).0)
  {
    hide Consistent, ExecuteRule, Created, Creatable, Unsupported;
    if id in s.table && !s.table[id].enforced && CreateRule(s.table[id]) {
      var r := s.table[id];
      AllOrNothing(k, s, id);
      if Creatable(k, s, r) {
        CreatedConsistent(k, s, r);
        TableConsistent(Created(k, s, r), s.table[id := r.(enforced := true)]);
      }
    } else {
      IdleRule(k, s, id);
    }
  }

  lemma RememberingParallel(ch: Channel, i: nat, event: Event)
    requires Parallel(ch) && i < |ch.objects.entries|
    ensures Parallel(Remembering(ch, i, event))
  {
    RememberParallel(ch, i, event);
  }

  lemma EmployConsistent(s: Stage, channelId: int, id: int, c: Config)
    requires Consistent(s)
    ensures Consistent(Employ(s, channelId, id, c).0)
  {
    hide Consistent, Employ, ControlTarget, Remembering, Parallel, ConfigStatus;
    EmployMeans(s, channelId, id, c);
    var found := ControlTarget(s, channelId, id);
    if found.Some? {
      var tg := found.value;
      ParallelAt(s, tg.channel);
      RememberingParallel(s.channels[tg.channel], tg.index, Applied(c));
      UpdateConsistent(s, tg.channel, Remembering(s.channels[tg.channel], tg.index, Applied(c)));
    }
  }

  /** The channel after a request passed through it. */
  function Passed(k: Classification, s: Stage, c: Requests.Context, buffer: Bytes): (ch: Channel)
    requires ChannelToken(k, TupleOfContext(c)) in s.channels
  {
    var x := TupleOfContext(c);
    var ch := s.channels[ChannelToken(k, x)];
    var ch' := match DataTarget(k, s, x)
      case Some(tg) => Remembering(ch, tg.index, Handled(BuildTicket(c, ch.issued % TWO_64, buffer)))
      case None => ch.(objects := ch.objects.(unmatched := ch.objects.unmatched + 1));
    ch'.(issued := ch.issued + 1)
  }

  lemma RequestPasses(k: Classification, s: Stage, c: Requests.Context, buffer: Bytes, r: Result)
    ensures var token := ChannelToken(k, TupleOfContext(c));
      EnforceRequest(k, s, c, buffer, r).0 ==
        if token !in s.channels then s else s.(channels := s.channels[token := Passed(k, s, c, buffer)])
  {
    hide EnforceRequest, ChannelToken, DataTarget, Remembering, BuildTicket, Answered;
    RequestMeans(k, s, c, buffer, r);
  }

  lemma PassedParallel(k: Classification, s: Stage, c: Requests.Context, buffer: Bytes)
    requires ChannelToken(k, TupleOfContext(c)) in s.channels
    requires Parallel(s.channels[ChannelToken(k, TupleOfContext(c))])
    ensures Parallel(Passed(k, s, c, buffer))
  {
    hide ChannelToken, BuildTicket, Find;
    var x := TupleOfContext(c);
    var ch := s.channels[ChannelToken(k, x)];
    var found := DataTarget(k, s, x);
    if found.Some? {
      RememberingParallel(ch, found.value.index, Handled(BuildTicket(c, ch.issued % TWO_64, buffer)));
    }
  }

  lemma RequestConsistent(k: Classification, s: Stage, c: Requests.Context, buffer: Bytes, r: Result)
    requires Consistent(s)
    ensures Consistent(EnforceRequest(k, s, c, buffer, r).0)
  {
    hide Consistent, EnforceRequest, ChannelToken, Passed, Parallel;
    RequestPasses(k, s, c, buffer, r);
    var token := ChannelToken(k, TupleOfContext(c));
    if token in s.channels {
      ParallelAt(s, token);
      PassedParallel(k, s, c, buffer);
      UpdateConsistent(s, token, Passed(k, s, c, buffer));
    }
  }

  // ---------- nothing that exists goes away or moves ----------

  ghost predicate ChannelGrows(a: Channel, b: Channel) {
    && a.linkers <= b.linkers
    && |a.objects.entries| <= |b.objects.entries|
    && (forall i | 0 <= i < |a.objects.entries| :: a.objects.entries[i].token == b.objects.entries[i].token)
  }

  ghost predicate IndexesGrow(a: Stage, b: Stage) {
    && a.linkers <= b.linkers
    && (forall token | token in a.channels :: token in b.channels && ChannelGrows(a.channels[token], b.channels[token]))
  }

  ghost predicate RulesGrow(a: Table, b: Table) {
    forall id | id in a ::
      id in b && b[id].(enforced := a[id].enforced) == a[id] && (a[id].enforced ==> b[id].enforced)
  }

  ghost predicate Grows(a: Stage, b: Stage) {
    IndexesGrow(a, b) && RulesGrow(a.table, b.table)
  }

  lemma GrowsTrans(a: Stage, b: Stage, c: Stage)
    requires Grows(a, b) && Grows(b, c)
    ensures Grows(a, c)
  {
    forall token | token in a.channels
      ensures token in c.channels && ChannelGrows(a.channels[token], c.channels[token])
    {
      assert token in b.channels && ChannelGrows(a.channels[token], b.channels[token]);
    }
    forall id | id in a.table
      ensures id in c.table && c.table[id].(enforced := a.table[id].enforced) == a.table[id]
      ensures a.table[id].enforced ==> c.table[id].enforced
    {
      assert id in b.table;
    }
  }

  lemma UpdateGrows(s: Stage, token: Token, ch: Channel)
    requires token in s.channels && ChannelGrows(s.channels[token], ch)
    ensures Grows(s, s.(channels := s.channels[token := ch]))
  {}

  lemma CreatedGrows(k: Classification, s: Stage, r: Rule)
    requires Creatable(k, s, r)
    ensures IndexesGrow(s, Created(k, s, r))
  {
    hide ChannelToken, ObjToken, TupleOf, PairOf, Property, PropertiesFrom, Lookup, Find, TypeOf, Position;
    if r.operation.CreateObject? {
      var token := Lookup(s.linkers, r.channelId);
      assert ChannelGrows(s.channels[token], Created(k, s, r).channels[token]);
    }
  }

  lemma StepGrows(k: Classification, s: Stage, e: Step)
    ensures Grows(s, Next(k, s, e))
  {
    hide ExecuteRule, Employ, EnforceRequest, Created, Creatable, ControlTarget, DataTarget, ChannelToken,
         ChannelReached, Passed, Unsupported, ConfigStatus;
    match e {
      case InsertRule(id, operation, channelId, objectId, properties) =>
      case Execute(id) => ExecuteGrows(k, s, id);
      case EmployRule(channelId, objectId, c) =>
        EmployMeans(s, channelId, objectId, c);
      case Request(c, buffer, r) =>
        RequestPasses(k, s, c, buffer, r);
        if ChannelToken(k, TupleOfContext(c)) in s.channels {
          PassedGrows(k, s, c, buffer);
        }
    }
  }

  lemma PassedGrows(k: Classification, s: Stage, c: Requests.Context, buffer: Bytes)
    requires ChannelToken(k, TupleOfContext(c)) in s.channels
    ensures ChannelGrows(s.channels[ChannelToken(k, TupleOfContext(c))], Passed(k, s, c, buffer))
  {
    hide ChannelToken, BuildTicket, Find;
  }

  lemma ExecuteGrows(k: Classification, s: Stage, id: nat)
    ensures Grows(s, ExecuteRule(k, s, id).0)
  {
    hide ExecuteRule, Created, Creatable, Unsupported;
    if id in s.table && !s.table[id].enforced && CreateRule(s.table[id]) {
      AllOrNothing(k, s, id);
      if Creatable(k, s, s.table[id]) {
        CreatedGrows(k, s, s.table[id]);
      }
    } else {
      IdleRule(k, s, id);
    }
  }

  lemma {:induction false} RunGrows(k: Classification, s: Stage, steps: seq<Step>)
    ensures Grows(s, After(k, s, steps))
    decreases |steps|
  {
    hide Next;
    if |steps| > 0 {
      var s1 := Next(k, s, steps[0]);
      StepGrows(k, s, steps[0]);
      RunGrows(k, s1, steps[1..]);
      GrowsTrans(s, s1, After(k, s1, steps[1..]));
    }
  }

  // ---------- enforced rules are in effect, each counted once ----------

  /** What an enforced rule asked for is there. */
  ghost predicate Effect(k: Classification, s: Stage, r: Rule) {
    match r.operation
    case CreateChannel => Linker(r.channelId, ChannelToken(k, TupleOf(r))) in s.linkers
    case CreateObject =>
      && ChannelReached(s, r.channelId)
      && Linker(r.objectId, ObjToken(k, PairOf(r))) in s.channels[Lookup(s.linkers, r.channelId)].linkers
    case _ => false
  }

  ghost predicate Realised(k: Classification, s: Stage) {
    forall id | id in s.table && s.table[id].enforced :: Effect(k, s, s.table[id])
  }

  /** The objects in the channels of a list of linkers. */
  function ObjectsLinked(ls: seq<Linker>, channels: map<Token, Channel>): nat {
    if |ls| == 0 then 0
    else
      var token := ls[|ls| - 1].token;
      ObjectsLinked(ls[..|ls| - 1], channels) + if token in channels then |channels[token].objects.entries| else 0
  }

  function Population(s: Stage): nat {
    |s.linkers| + ObjectsLinked(s.linkers, s.channels)
  }

  lemma {:induction false} UpdateElsewhere(ls: seq<Linker>, channels: map<Token, Channel>, token: Token, ch: Channel)
    requires forall i | 0 <= i < |ls| :: ls[i].token != token
    ensures ObjectsLinked(ls, channels[token := ch]) == ObjectsLinked(ls, channels)
  {
    if |ls| > 0 {
      UpdateElsewhere(ls[..|ls| - 1], channels, token, ch);
    }
  }

  lemma {:induction false} UpdateCounts(ls: seq<Linker>, channels: map<Token, Channel>, i: nat, ch: Channel)
    requires forall a, b | 0 <= a < b < |ls| :: ls[a].token != ls[b].token
    requires i < |ls| && ls[i].token in channels
    ensures ObjectsLinked(ls, channels[ls[i].token := ch]) ==
      ObjectsLinked(ls, channels) - |channels[ls[i].token].objects.entries| + |ch.objects.entries|
  {
    var init := ls[..|ls| - 1];
    if i == |ls| - 1 {
      UpdateElsewhere(init, channels, ls[i].token, ch);
    } else {
      UpdateCounts(init, channels, i, ch);
      assert ls[|ls| - 1].token != ls[i].token;
    }
  }

  lemma UpdatePopulation(s: Stage, token: Token, ch: Channel)
    requires Consistent(s) && token in s.channels
    ensures Population(s.(channels := s.channels[token := ch])) ==
      Population(s) - |s.channels[token].objects.entries| + |ch.objects.entries|
  {
    hide Parallel;
    var i :| 0 <= i < |s.linkers| && s.linkers[i].token == token;
    UpdateCounts(s.linkers, s.channels, i, ch);
  }

  lemma WithChannelPopulation(s: Stage, id: int, token: Token)
    requires Consistent(s) && token !in s.channels
    ensures Population(WithChannel(s, id, token)) == Population(s) + 1
  {
    hide Parallel;
    assert WithChannel(s, id, token).linkers[..|s.linkers|] == s.linkers;
    UpdateElsewhere(s.linkers, s.channels, token, NO_OBJECTS);
  }

  lemma CreatedPopulation(k: Classification, s: Stage, r: Rule)
    requires Consistent(s) && Creatable(k, s, r)
    ensures Population(Created(k, s, r)) == Population(s) + 1
  {
    hide ChannelToken, ObjToken, TupleOf, PairOf, Property, PropertiesFrom, Lookup, Find, TypeOf, Parallel, Position,
         Consistent, WithChannel, Population;
    if r.operation.CreateChannel? {
      WithChannelPopulation(s, r.channelId, ChannelToken(k, TupleOf(r)));
    } else {
      var token := Lookup(s.linkers, r.channelId);
      UpdatePopulation(s, token, Created(k, s, r).channels[token]);
    }
  }

  lemma CreatedEffect(k: Classification, s: Stage, r: Rule)
    requires Creatable(k, s, r)
    ensures Effect(k, Created(k, s, r), r)
  {
    hide ChannelToken, ObjToken, TupleOf, PairOf, Property, PropertiesFrom, Lookup, Find, TypeOf, Position;
    if r.operation.CreateChannel? {
      assert Created(k, s, r).linkers[|s.linkers|] == Linker(r.channelId, ChannelToken(k, TupleOf(r)));
    } else {
      var token := Lookup(s.linkers, r.channelId);
      var ch := s.channels[token];
      assert Created(k, s, r).channels[token].linkers[|ch.linkers|] == Linker(r.objectId, ObjToken(k, PairOf(r)));
    }
  }

  lemma LookupGrows(a: seq<Linker>, b: seq<Linker>, id: int)
    requires a <= b && Position(a, id) < |a|
    ensures Position(b, id) == Position(a, id) && Lookup(b, id) == Lookup(a, id)
  {
    PositionIs(b, id, Position(a, id));
  }

  lemma FoundLookup(ls: seq<Linker>, id: int)
    requires Lookup(ls, id) != NOT_FOUND
    ensures Position(ls, id) < |ls|
  {}

  lemma EffectGrows(k: Classification, a: Stage, b: Stage, r: Rule)
    requires Effect(k, a, r) && IndexesGrow(a, b)
    ensures Effect(k, b, r)
  {
    hide ChannelToken, ObjToken, TupleOf, PairOf, Lookup, Position;
    if r.operation.CreateObject? {
      FoundLookup(a.linkers, r.channelId);
      LookupGrows(a.linkers, b.linkers, r.channelId);
    }
  }

  /** Everything that is kept: `base` counts what the constructor built. */
  ghost predicate Inv(k: Classification, base: nat, s: Stage) {
    && Consistent(s)
    && Realised(k, s)
    && Population(s) == base + |EnforcedRules(s.table)|
  }

  lemma RealisedGrows(k: Classification, a: Stage, b: Stage)
    requires Realised(k, a) && IndexesGrow(a, b)
    requires forall id | id in b.table && b.table[id].enforced ::
      (id in a.table && b.table[id] == a.table[id]) || Effect(k, b, b.table[id])
    ensures Realised(k, b)
  {
    hide Effect;
    forall id | id in b.table && b.table[id].enforced
      ensures Effect(k, b, b.table[id])
    {
      if id in a.table && b.table[id] == a.table[id] {
        EffectGrows(k, a, b, a.table[id]);
      }
    }
  }

  lemma ExecuteInv(k: Classification, base: nat, s: Stage, id: nat)
    requires Inv(k, base, s)
    ensures Inv(k, base, ExecuteRule(k, s, id).0)
  {
    hide ExecuteRule, Created, Creatable, Unsupported, Effect, Consistent, Realised, Population, EnforcedRules,
         IndexesGrow;
    ExecuteConsistent(k, s, id);
    if id in s.table && !s.table[id].enforced && CreateRule(s.table[id]) {
      AllOrNothing(k, s, id);
      if Creatable(k, s, s.table[id]) {
        CreatedInv(k, base, s, id);
      }
    } else {
      IdleRule(k, s, id);
    }
  }

  lemma CreatedInv(k: Classification, base: nat, s: Stage, id: nat)
    requires Inv(k, base, s) && id in s.table && !s.table[id].enforced && Creatable(k, s, s.table[id])
    ensures var r := s.table[id];
      var s' := Created(k, s, r).(table := s.table[id := r.(enforced := true)]);
      && Realised(k, s')
      && Population(s') == base + |EnforcedRules(s'.table)|
  {
    hide Created, Creatable, Effect, Consistent, ObjectsLinked, EnforcedRules, IndexesGrow, ChannelReached;
    var r := s.table[id];
    var s' := Created(k, s, r).(table := s.table[id := r.(enforced := true)]);
    CreatedPopulation(k, s, r);
    MarkCounts(s.table, id);
    CreatedGrows(k, s, r);
    CreatedEffect(k, s, r);
    TableEffect(k, Created(k, s, r), s', r);
    TableIndexes(s, Created(k, s, r), s');
    RealisedGrows(k, s, s');
  }

  lemma TableEffect(k: Classification, a: Stage, b: Stage, r: Rule)
    requires Effect(k, a, r) && a.linkers == b.linkers && a.channels == b.channels
    ensures Effect(k, b, r) && Effect(k, b, r.(enforced := true))
  {
    hide ChannelToken, ObjToken, Lookup;
  }

  lemma TableIndexes(s: Stage, a: Stage, b: Stage)
    requires IndexesGrow(s, a) && a.linkers == b.linkers && a.channels == b.channels
    ensures IndexesGrow(s, b)
  {}

  lemma StillRealised(k: Classification, a: Stage, b: Stage)
    requires Realised(k, a) && IndexesGrow(a, b)
    requires forall id | id in b.table && b.table[id].enforced :: id in a.table && b.table[id] == a.table[id]
    ensures Realised(k, b)
  {
    hide Effect, IndexesGrow;
    RealisedGrows(k, a, b);
  }

  lemma QuietInv(k: Classification, base: nat, s: Stage, token: Token, ch: Channel)
    requires Inv(k, base, s) && token in s.channels
    requires ChannelGrows(s.channels[token], ch) && Parallel(ch)
    requires |ch.objects.entries| == |s.channels[token].objects.entries|
    ensures Inv(k, base, s.(channels := s.channels[token := ch]))
  {
    hide Effect, Population, Consistent, EnforcedRules, Parallel, ChannelGrows, Realised;
    var s' := s.(channels := s.channels[token := ch]);
    UpdateConsistent(s, token, ch);
    UpdatePopulation(s, token, ch);
    UpdateGrows(s, token, ch);
    StillRealised(k, s, s');
  }

  lemma InsertInv(k: Classification, base: nat, s: Stage, id: nat, r: Rule)
    requires Inv(k, base, s) && !r.enforced
    ensures Inv(k, base, s.(table := Insert(s.table, id, r).0))
  {
    hide Effect, Consistent, EnforcedRules, Realised, IndexesGrow, ObjectsLinked;
    var s' := s.(table := Insert(s.table, id, r).0);
    TableConsistent(s, s'.table);
    SameIndexes(s, s');
    StillRealised(k, s, s');
    if id !in s.table {
      InsertCounts(s.table, id, r);
    }
  }

  lemma SameIndexes(a: Stage, b: Stage)
    requires a.linkers == b.linkers && a.channels == b.channels
    ensures IndexesGrow(a, b)
  {}

  lemma RememberingQuiet(ch: Channel, i: nat, event: Event)
    requires i < |ch.objects.entries|
    ensures ChannelGrows(ch, Remembering(ch, i, event))
    ensures |Remembering(ch, i, event).objects.entries| == |ch.objects.entries|
  {}

  lemma EmployInv(k: Classification, base: nat, s: Stage, channelId: int, id: int, c: Config)
    requires Inv(k, base, s)
    ensures Inv(k, base, Employ(s, channelId, id, c).0)
  {
    hide Inv, Employ, ControlTarget, Remembering, Parallel, ChannelGrows, ConfigStatus;
    EmployMeans(s, channelId, id, c);
    var found := ControlTarget(s, channelId, id);
    if found.Some? {
      var tg := found.value;
      InvConsistent(k, base, s);
      ParallelAt(s, tg.channel);
      RememberingParallel(s.channels[tg.channel], tg.index, Applied(c));
      RememberingQuiet(s.channels[tg.channel], tg.index, Applied(c));
      QuietInv(k, base, s, tg.channel, Remembering(s.channels[tg.channel], tg.index, Applied(c)));
    }
  }

  lemma InvConsistent(k: Classification, base: nat, s: Stage)
    requires Inv(k, base, s)
    ensures Consistent(s)
  {}

  lemma RequestInv(k: Classification, base: nat, s: Stage, c: Requests.Context, buffer: Bytes, r: Result)
    requires Inv(k, base, s)
    ensures Inv(k, base, EnforceRequest(k, s, c, buffer, r).0)
  {
    hide Inv, EnforceRequest, ChannelToken, Passed, Parallel, ChannelGrows;
    RequestPasses(k, s, c, buffer, r);
    var token := ChannelToken(k, TupleOfContext(c));
    if token in s.channels {
      InvConsistent(k, base, s);
      ParallelAt(s, token);
      PassedParallel(k, s, c, buffer);
      PassedGrows(k, s, c, buffer);
      PassedAdds(k, s, c, buffer);
      QuietInv(k, base, s, token, Passed(k, s, c, buffer));
    }
  }

  lemma PassedAdds(k: Classification, s: Stage, c: Requests.Context, buffer: Bytes)
    requires ChannelToken(k, TupleOfContext(c)) in s.channels
    ensures var ch := s.channels[ChannelToken(k, TupleOfContext(c))];
      |Passed(k, s, c, buffer).objects.entries| == |ch.objects.entries|
  {
    hide ChannelToken, BuildTicket, Find;
  }

  lemma StepInv(k: Classification, base: nat, s: Stage, e: Step)
    requires Inv(k, base, s)
    ensures Inv(k, base, Next(k, s, e))
  {
    hide Inv, ExecuteRule, Employ, EnforceRequest, Insert;
    match e {
      case InsertRule(id, operation, channelId, objectId, properties) =>
        InsertInv(k, base, s, id, Rule(operation, channelId, objectId, properties, false));
      case Execute(id) => ExecuteInv(k, base, s, id);
      case EmployRule(channelId, objectId, c) => EmployInv(k, base, s, channelId, objectId, c);
      case Request(c, buffer, r) => RequestInv(k, base, s, c, buffer, r);
    }
  }

  /** In every stage that a run reaches: linkers and channels are in bijection, every channel's indexes
      run parallel with distinct tokens, every enforced rule is in effect, and the channels and
      objects that the constructor did not build number exactly the enforced rules. */
  lemma {:induction false} RunInv(k: Classification, base: nat, s: Stage, steps: seq<Step>)
    requires Inv(k, base, s)
    ensures Inv(k, base, After(k, s, steps))
    decreases |steps|
  {
    hide Inv, Next;
    if |steps| > 0 {
      StepInv(k, base, s, steps[0]);
      RunInv(k, base, Next(k, s, steps[0]), steps[1..]);
    }
  }

  /** A consistent stage with no rules can start a run. */
  lemma StartInv(k: Classification, s: Stage)
    requires Consistent(s) && s.table == map[]
    ensures Inv(k, Population(s), s)
  {
    assert EnforcedRules(s.table) == {};
  }
}
