/** The control path, which addresses an object by identifiers, and the data path, which finds it by
    hashing a request's classifiers, lead to the same object, and do so for ever. */
module StagePaths {
  import opened Common
  import opened Requests
  import opened Differentiation
  import opened EnforcementObjects
  import opened HousekeepingTables
  import opened Stages
  import opened StageRuns
  import opened HousekeepingPasses

  // ---------- targets never move ----------

  lemma FindGrows(a: Channel, b: Channel, token: Token)
    requires ChannelGrows(a, b) && Find(a.objects.entries, token) < |a.objects.entries|
    ensures Find(b.objects.entries, token) == Find(a.objects.entries, token)
  {
    FindIs(b.objects.entries, token, Find(a.objects.entries, token));
  }

  lemma TargetKept(a: Stage, b: Stage, channel: Token, object': Token)
    requires IndexesGrow(a, b) && TargetIn(a, channel, object').Some?
    ensures TargetIn(b, channel, object') == TargetIn(a, channel, object')
  {
    hide Find;
    FindGrows(a.channels[channel], b.channels[channel], object');
  }

  lemma ControlKept(a: Stage, b: Stage, channelId: int, id: int)
    requires IndexesGrow(a, b) && ControlTarget(a, channelId, id).Some?
    ensures ControlTarget(b, channelId, id) == ControlTarget(a, channelId, id)
  {
    hide TargetIn, Lookup, Position;
    var token := Lookup(a.linkers, channelId);
    FoundLookup(a.linkers, channelId);
    LookupGrows(a.linkers, b.linkers, channelId);
    FoundLookup(a.channels[token].linkers, id);
    LookupGrows(a.channels[token].linkers, b.channels[token].linkers, id);
    TargetKept(a, b, token, Lookup(a.channels[token].linkers, id));
  }

  lemma DataKept(k: Classification, a: Stage, b: Stage, x: Tuple)
    requires IndexesGrow(a, b) && DataTarget(k, a, x).Some?
    ensures DataTarget(k, b, x) == DataTarget(k, a, x)
  {
    hide TargetIn, ChannelToken, ObjToken;
    TargetKept(a, b, ChannelToken(k, x), ObjToken(k, Pair(x.opType, x.context)));
  }

  /** What either path reaches, it reaches after any run: later rules never reroute it. */
  lemma NeverRerouted(k: Classification, s: Stage, steps: seq<Step>, channelId: int, id: int, x: Tuple)
    ensures var s' := After(k, s, steps);
      && (ControlTarget(s, channelId, id).Some? ==> ControlTarget(s', channelId, id) == ControlTarget(s, channelId, id))
      && (DataTarget(k, s, x).Some? ==> DataTarget(k, s', x) == DataTarget(k, s, x))
  {
    hide ControlTarget, DataTarget, IndexesGrow, RulesGrow, After;
    var s' := After(k, s, steps);
    RunGrows(k, s, steps);
    if ControlTarget(s, channelId, id).Some? {
      ControlKept(s, s', channelId, id);
    }
    if DataTarget(k, s, x).Some? {
      DataKept(k, s, s', x);
    }
  }

  // ---------- the two paths meet ----------

  /** A request is classified like the two rules. */
  ghost predicate Matches(k: Classification, x: Tuple, channelRule: Rule, objectRule: Rule) {
    && ChannelToken(k, x) == ChannelToken(k, TupleOf(channelRule))
    && ObjToken(k, Pair(x.opType, x.context)) == ObjToken(k, PairOf(objectRule))
  }

  /** With hashed classifiers it is enough that it agrees with the rules on the selected ones. */
  lemma AgreeingMatches(f: Flags, g: ObjectFlags, x: Tuple, channelRule: Rule, objectRule: Rule)
    requires Agree(f, x, TupleOf(channelRule))
    requires g.opType ==> x.opType == PairOf(objectRule).opType
    requires g.context ==> x.context == PairOf(objectRule).context
    ensures Matches(Hashed(f, g), x, channelRule, objectRule)
  {
    hide Text, TupleOf, PairOf, MurmurX86_32.Hash;
    TextUnambiguous(f, x, TupleOf(channelRule));
    ObjectTextUnambiguous(g, Pair(x.opType, x.context), PairOf(objectRule));
  }

  ghost predicate UniqueId(ls: seq<Linker>, id: int) {
    forall i, j | 0 <= i < |ls| && 0 <= j < |ls| && ls[i].id == id && ls[j].id == id :: i == j
  }

  lemma LookupUnique(ls: seq<Linker>, id: int, token: Token)
    requires UniqueId(ls, id) && Linker(id, token) in ls
    ensures Lookup(ls, id) == token
  {}

  lemma DistinctUnique(s: Stage, id: int)
    requires Consistent(s)
    ensures UniqueId(s.linkers, id)
  {
    hide Parallel;
  }

  lemma LinkedTokenFound(ch: Channel, id: int, token: Token)
    requires Parallel(ch) && Linker(id, token) in ch.linkers
    ensures Find(ch.objects.entries, token) < |ch.objects.entries|
  {
    var i :| 0 <= i < |ch.linkers| && ch.linkers[i] == Linker(id, token);
    assert ch.objects.entries[i].token == token;
  }

  /** Of the linkers with the identifier, the first has the token. */
  predicate FirstLinked(ls: seq<Linker>, id: int, token: Token) {
    Position(ls, id) < |ls| && ls[Position(ls, id)].token == token
  }

  /** The source accepts an identifier more than once in a channel.  The identifier of a linker reaches
      the object beside that linker if and only if the linker is the first with its identifier and
      its token is not the not-found value. */
  lemma ReachesOwnIffFirst(s: Stage, channelId: int, i: nat)
    requires Consistent(s) && ChannelReached(s, channelId)
    requires i < |s.channels[Lookup(s.linkers, channelId)].linkers|
    ensures var token := Lookup(s.linkers, channelId);
      var ls := s.channels[token].linkers;
      ControlTarget(s, channelId, ls[i].id) == Some(Target(token, i)) <==>
        Position(ls, ls[i].id) == i && ls[i].token != NOT_FOUND
  {
    hide Consistent, Lookup;
    var token := Lookup(s.linkers, channelId);
    ParallelAt(s, token);
    OwnPosition(s.channels[token], i);
    LookupAt(s.channels[token].linkers, s.channels[token].linkers[i].id);
    OwnPosition(s.channels[token], Position(s.channels[token].linkers, s.channels[token].linkers[i].id));
  }

  lemma LookupAt(ls: seq<Linker>, id: int)
    requires Position(ls, id) < |ls|
    ensures Lookup(ls, id) == ls[Position(ls, id)].token
  {}

  lemma OwnPosition(ch: Channel, i: nat)
    requires Parallel(ch) && i < |ch.linkers|
    ensures Find(ch.objects.entries, ch.linkers[i].token) == i
  {
    FindIs(ch.objects.entries, ch.linkers[i].token, i);
  }

  /** Two enforced rules, one for a channel and one for an object in it.  Every request that matches their
      classifiers reaches an object.  The identifiers reach the same one if and only if the object's
      linker is the first with its identifier and its token is not the not-found value; they reach
      none when it is the first and its token is that value. */
  lemma ControlMeetsData(k: Classification, s: Stage, channelRule: Rule, objectRule: Rule, x: Tuple)
    requires Consistent(s) && Effect(k, s, channelRule) && Effect(k, s, objectRule)
    requires channelRule.operation.CreateChannel? && objectRule.operation.CreateObject?
    requires objectRule.channelId == channelRule.channelId
    requires Matches(k, x, channelRule, objectRule)
    ensures DataTarget(k, s, x).Some?
    ensures var token := ObjToken(k, PairOf(objectRule));
      var ls := s.channels[Lookup(s.linkers, channelRule.channelId)].linkers;
      var first := FirstLinked(ls, objectRule.objectId, token);
      && (ControlTarget(s, objectRule.channelId, objectRule.objectId) == DataTarget(k, s, x) <==>
            first && token != NOT_FOUND)
      && (first && token == NOT_FOUND ==> ControlTarget(s, objectRule.channelId, objectRule.objectId) == None)
  {
    hide ChannelToken, ObjToken, TupleOf, PairOf, Find, Lookup, Parallel, UniqueId, Consistent, Position;
    var token, objectToken := ChannelToken(k, TupleOf(channelRule)), ObjToken(k, PairOf(objectRule));
    DistinctUnique(s, channelRule.channelId);
    LookupUnique(s.linkers, channelRule.channelId, token);
    ParallelAt(s, token);
    var ch := s.channels[token];
    LinkedTokenFound(ch, objectRule.objectId, objectToken);
    LinkedPosition(ch.linkers, objectRule.objectId, objectToken);
    LookupAt(ch.linkers, objectRule.objectId);
  }

  lemma LinkedPosition(ls: seq<Linker>, id: int, token: Token)
    requires Linker(id, token) in ls
    ensures Position(ls, id) < |ls|
  {}

  /** Two rules that give one identifier to two objects of a channel: requests for the second reach it,
      and its identifier reaches the first. */
  lemma RepeatedIdentifier(k: Classification, x: Tuple, p: Pair) returns (steps: seq<Step>)
    requires ChannelToken(k, x) != NOT_FOUND && ObjToken(k, p) != NOT_FOUND
    requires ObjToken(k, Pair(x.opType, x.context)) != ObjToken(k, p)
    ensures var s := After(k, EMPTY_STAGE, steps);
      && ControlTarget(s, 1, 7) == Some(Target(ChannelToken(k, x), 0))
      && DataTarget(k, s, x) == Some(Target(ChannelToken(k, x), 1))
  {
    hide ChannelToken, ObjToken, After;
    var q, token := Pair(x.opType, x.context), ChannelToken(k, x);
    var link := LinkChannel(k, EMPTY_STAGE, 1, x);
    var s1 := After(k, EMPTY_STAGE, link);
    PositionIs(s1.linkers, 1, 0);
    var first, _ := LinkObject(k, s1, 1, 7, p);
    var s2 := After(k, s1, first);
    var second, _ := LinkObject(k, s2, 1, 7, q);
    var s3 := After(k, s2, second);
    AfterAppend(k, EMPTY_STAGE, link, first);
    AfterAppend(k, EMPTY_STAGE, link + first, second);
    steps := link + first + second;
    PositionIs(s3.channels[token].linkers, 7, 0);
    FindIs(s3.channels[token].objects.entries, ObjToken(k, p), 0);
    FindIs(s3.channels[token].objects.entries, ObjToken(k, q), 1);
  }

  /** The same, in every stage that a run reaches from a start without rules: once the two rules are
      enforced, identifiers and classifiers lead to one object, after any further run as well. */
  lemma ControlMeetsDataForEver(
    k: Classification, start: Stage, steps: seq<Step>, more: seq<Step>, i: nat, j: nat, x: Tuple)
    requires Consistent(start) && start.table == map[]
    requires var s := After(k, start, steps);
      && i in s.table && s.table[i].enforced && s.table[i].operation.CreateChannel?
      && j in s.table && s.table[j].enforced && s.table[j].operation.CreateObject?
      && s.table[j].channelId == s.table[i].channelId
      && Lookup(s.linkers, s.table[i].channelId) in s.channels
      && FirstLinked(s.channels[Lookup(s.linkers, s.table[i].channelId)].linkers,
           s.table[j].objectId, ObjToken(k, PairOf(s.table[j])))
      && Matches(k, x, s.table[i], s.table[j])
      && ObjToken(k, PairOf(s.table[j])) != NOT_FOUND
    ensures var s, s' := After(k, start, steps), After(k, start, steps + more);
      && DataTarget(k, s, x).Some?
      && ControlTarget(s, s.table[j].channelId, s.table[j].objectId) == DataTarget(k, s, x)
      && ControlTarget(s', s.table[j].channelId, s.table[j].objectId) == DataTarget(k, s, x)
      && DataTarget(k, s', x) == DataTarget(k, s, x)
  {
    hide After, Effect, Consistent, FirstLinked, Matches, ControlTarget, DataTarget, Lookup, ObjToken, Population,
         PairOf;
    var s := After(k, start, steps);
    StartInv(k, start);
    RunInv(k, Population(start), start, steps);
    ControlMeetsData(k, s, s.table[i], s.table[j], x);
    AfterAppend(k, start, steps, more);
    NeverRerouted(k, s, more, s.table[j].channelId, s.table[j].objectId, x);
  }

  /** When both paths lead to one object, an enforcement rule followed by a request leaves exactly these
      two calls in its past, in this order, and every other object as it was. */
  lemma ConfiguresWhatServes(
    k: Classification, s: Stage, channelId: int, id: int, c: Config, context: Requests.Context, buffer: Bytes,
    r: Result, other: Target)
    requires ControlTarget(s, channelId, id).Some?
    requires DataTarget(k, s, TupleOfContext(context)) == ControlTarget(s, channelId, id)
    requires Hits(s, other)
    ensures var tg := ControlTarget(s, channelId, id).value;
      var s1 := Employ(s, channelId, id, c).0;
      var (s2, r') := EnforceRequest(k, s1, context, buffer, r);
      var t := BuildTicket(context, s.channels[tg.channel].issued % TWO_64, buffer);
      && Hits(s2, other)
      && ObjectAt(s2, other) ==
        (if other == tg
         then ObjectAt(s, tg).(past := ObjectAt(s, tg).past + [Applied(c), Handled(t)])
         else ObjectAt(s, other))
      && r'.status == Success && r'.ticketId == s.channels[tg.channel].issued % 0x1_0000_0000_0000_0000
      && (r'.hasContent <==> |buffer| > 0)
      && (|buffer| > 0 ==> r'.contentSize == |buffer| && r'.content == buffer)
      && (|buffer| == 0 ==> r'.contentSize == r.contentSize && r'.content == r.content)
  {
    hide Employ, EnforceRequest, ChannelToken, Find, Lookup, TupleOfContext, Answered, BuildTicket, ConfigStatus,
         ObjToken;
    var tg := ControlTarget(s, channelId, id).value;
    var x := TupleOfContext(context);
    EmployMeans(s, channelId, id, c);
    var s1 := Employ(s, channelId, id, c).0;
    assert IndexesGrow(s, s1);
    DataKept(k, s, s1, x);
    RequestMeans(k, s1, context, buffer, r);
    StageAnswers(k, s1, context, buffer, r);
    var t := BuildTicket(context, s.channels[tg.channel].issued % TWO_64, buffer);
    assert ObjectAt(s, tg).past + [Applied(c)] + [Handled(t)] == ObjectAt(s, tg).past + [Applied(c), Handled(t)];
  }
}
