/** What the not-found token does to a stage whose classifiers reach it: an object that serves requests but
    that no enforcement rule reaches, and an object rule that blocks every pass. */
module NotFoundStages {
  import opened Common
  import opened Differentiation
  import opened EnforcementObjects
  import opened HousekeepingTables
  import opened NotFoundToken
  import opened Stages
  import opened HousekeepingPasses

  /** The operation type and context that hash to the not-found token. */
  function Clashing(workflow: Classifier): Tuple {
    Tuple(workflow, 58894, 11005)
  }

  lemma ClashingTokens(f: Flags, g: ObjectFlags, workflow: Classifier)
    ensures g == ObjectFlags(true, true) ==> ObjToken(Hashed(f, g), Pair(58894, 11005)) == NOT_FOUND
    ensures f == Flags(false, true, true) ==> ChannelToken(Hashed(f, g), Clashing(workflow)) == NOT_FOUND
  {
    hide TokenOf;
    TwoClassifiersClash(0);
    TwoClassifiersClash(workflow);
  }

  const LOST := Pair(58894, 11005)

  /** A stage with one channel, whose one object has the not-found token. */
  ghost predicate OneLostObject(s: Stage, token: Token, o: Obj) {
    && token != NOT_FOUND
    && s.linkers == [Linker(1, token)]
    && s.channels == map[token := WithObject(NO_OBJECTS, 7, NOT_FOUND, o)]
  }

  /** There requests reach the object, and its identifiers do not. */
  lemma LostObjectParts(k: Classification, s: Stage, token: Token, o: Obj, x: Tuple, c: Config)
    requires OneLostObject(s, token, o)
    requires ChannelToken(k, x) == token && ObjToken(k, Pair(x.opType, x.context)) == NOT_FOUND
    ensures DataTarget(k, s, x) == Some(Target(token, 0))
    ensures ControlTarget(s, 1, 7) == None && Employ(s, 1, 7, c) == (s, Failed)
  {
    hide ChannelToken, ObjToken, Employ;
    PositionIs(s.linkers, 1, 0);
    FindIs(s.channels[token].objects.entries, NOT_FOUND, 0);
    PositionIs(s.channels[token].linkers, 7, 0);
    EmployMeans(s, 1, 7, c);
  }

  /** With both object classifiers hashed, and the channel classifiers not reaching the not-found token,
      a run of two create rules ends there: requests reach an object for which every enforcement rule
      fails. */
  lemma PathsPart(f: Flags, workflow: Classifier) returns (steps: seq<Step>)
    requires ChannelToken(Hashed(f, ObjectFlags(true, true)), Clashing(workflow)) != NOT_FOUND
    ensures var k := Hashed(f, ObjectFlags(true, true));
      var s := After(k, EMPTY_STAGE, steps);
      && (exists id | id in s.table :: s.table[id] == ObjectRule(1, 7, LOST).(enforced := true))
      && DataTarget(k, s, Clashing(workflow)).Some?
      && ControlTarget(s, 1, 7) == None
      && forall c :: Employ(s, 1, 7, c) == (s, Failed)
  {
    var k, x := Hashed(f, ObjectFlags(true, true)), Clashing(workflow);
    ClashingTokens(f, ObjectFlags(true, true), workflow);
    hide Hashed, ChannelToken, ObjToken, ControlTarget, DataTarget, Employ;
    var link := LinkChannel(k, EMPTY_STAGE, 1, x);
    var s := After(k, EMPTY_STAGE, link);
    var create, n := CreateLostObject(k, s, ChannelToken(k, x));
    steps := link + create;
    AfterAppend(k, EMPTY_STAGE, link, create);
    var s' := After(k, s, create);
    var o := NewObject(Noop, 7, []);
    assert s'.table[n] == ObjectRule(1, 7, LOST).(enforced := true);
    forall c
      ensures Employ(s', 1, 7, c) == (s', Failed)
    {
      LostObjectParts(k, s', ChannelToken(k, x), o, x, c);
    }
    LostObjectParts(k, s', ChannelToken(k, x), o, x, Config(INIT, []));
  }

  lemma CreateLostObject(k: Classification, s: Stage, token: Token) returns (steps: seq<Step>, n: nat)
    requires token != NOT_FOUND && ObjToken(k, LOST) == NOT_FOUND
    requires s.linkers == [Linker(1, token)] && s.channels == map[token := NO_OBJECTS]
    ensures var s' := After(k, s, steps);
      && n in s'.table && s'.table[n] == ObjectRule(1, 7, LOST).(enforced := true)
      && OneLostObject(s', token, NewObject(Noop, 7, []))
  {
    hide ObjToken, After;
    PositionIs(s.linkers, 1, 0);
    steps, n := LinkObject(k, s, 1, 7, LOST);
  }

  /** It is so for the default channel classifiers, the operation context alone. */
  lemma PathsPartByDefault(workflow: Classifier) returns (steps: seq<Step>)
    ensures var k := Hashed(Flags(false, false, true), ObjectFlags(true, true));
      var s := After(k, EMPTY_STAGE, steps);
      && DataTarget(k, s, Clashing(workflow)).Some?
      && ControlTarget(s, 1, 7) == None
      && forall c :: Employ(s, 1, 7, c) == (s, Failed)
  {
    ContextFound(workflow);
    assert ChannelToken(Hashed(Flags(false, false, true), ObjectFlags(true, true)), Clashing(workflow)) != NOT_FOUND
      by { hide TokenOf; }
    hide Hashed, ChannelToken, ControlTarget, DataTarget, Employ, After;
    steps := PathsPart(Flags(false, false, true), workflow);
  }

  /** With operation type and context hashed for channels, a run of two rules leaves an object rule that
      blocks every later pass: its channel exists, under the not-found token. */
  lemma NotFoundChannelBlocks(g: ObjectFlags, workflow: Classifier) returns (steps: seq<Step>, n: nat)
    ensures var k := Hashed(Flags(false, true, true), g);
      Blocking(k, After(k, EMPTY_STAGE, steps), n)
  {
    var k, x := Hashed(Flags(false, true, true), g), Clashing(workflow);
    ClashingTokens(Flags(false, true, true), g, workflow);
    hide Hashed, ChannelToken;
    var link := LinkChannel(k, EMPTY_STAGE, 1, x);
    var s := After(k, EMPTY_STAGE, link);
    n := NewRuleId(s.table);
    var r := ObjectRule(1, 7, LOST);
    var e := InsertRule(n, CreateObject, 1, 7, r.properties);
    steps := link + [e];
    OneMore(k, EMPTY_STAGE, link, e);
    var s' := Next(k, s, e);
    assert s' == s.(table := s.table[n := r]);
    PositionIs(s'.linkers, 1, 0);
  }
}
