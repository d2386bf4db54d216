/** The stage that the core's constructor builds when it is asked for default channels. */
module DefaultStages {
  import opened Common
  import opened Differentiation
  import opened Messages
  import opened EnforcementObjects
  import opened Stages
  import opened StageRuns

  /** The classifiers of the i-th default channel: workflow i and no operation. */
  function DefaultTuple(i: nat): Tuple {
    Tuple(ToClassifier(i), 0, 0)
  }

  const NOOP_CODE := 0

  function AddDefault(k: Classification, s: Stage, i: nat, objects: bool): Stage {
    var (s', status) := AddChannel(k, s, i, DefaultTuple(i));
    if objects && status == OK then AddObject(k, s', i, 0, Pair(0, 0), NOOP_CODE, []).0 else s'
  }

  function WithDefaults(k: Classification, channels: nat, objects: bool): Stage {
    if channels == 0 then EMPTY_STAGE else AddDefault(k, WithDefaults(k, channels - 1, objects), channels, objects)
  }

  /** Either the channel is new, alone or with one no-op object, or nothing changes. */
  lemma AddDefaultMeans(k: Classification, s: Stage, i: nat, objects: bool)
    requires Consistent(s)
    ensures Consistent(AddDefault(k, s, i, objects)) && AddDefault(k, s, i, objects).table == s.table
    ensures var token := ChannelToken(k, DefaultTuple(i));
      AddDefault(k, s, i, objects).linkers ==
        if token !in s.channels && Position(s.linkers, i) == |s.linkers| then s.linkers + [Linker(i, token)]
        else s.linkers
    ensures AddDefault(k, s, i, objects).channels.Keys ==
      (set l | l in AddDefault(k, s, i, objects).linkers :: l.token)
  {
    hide ChannelToken, ObjToken, Consistent, Position, CreateInChannel, WithObject, WithChannel;
    var token := ChannelToken(k, DefaultTuple(i));
    if token !in s.channels && Position(s.linkers, i) == |s.linkers| {
      WithChannelConsistent(s, i, token);
      var s1 := AddChannel(k, s, i, DefaultTuple(i)).0;
      WithChannelIs(s, i, token);
      if objects {
        CreateObjectConsistent(k, s1, i, 0, Pair(0, 0), NOOP_CODE, []);
      }
    }
    KeysAreLinked(AddDefault(k, s, i, objects));
  }

  lemma WithChannelIs(s: Stage, id: int, token: Token)
    ensures WithChannel(s, id, token) ==
      s.(linkers := s.linkers + [Linker(id, token)], channels := s.channels[token := NO_OBJECTS])
  {}

  lemma KeysAreLinked(s: Stage)
    requires Consistent(s)
    ensures s.channels.Keys == (set l | l in s.linkers :: l.token)
  {
    hide Parallel, DistinctLinkers;
  }

  lemma CreateObjectConsistent(
    k: Classification, s: Stage, channelId: int, id: int, p: Pair, code: int, configs: seq<int>)
    requires Consistent(s)
    ensures var s' := AddObject(k, s, channelId, id, p, code, configs).0;
      Consistent(s') && s'.linkers == s.linkers && s'.table == s.table
  {
    hide ObjToken, Consistent, Lookup, CreateInChannel, Find, WithObject, Parallel;
    var token := Lookup(s.linkers, channelId);
    if ChannelReached(s, channelId) {
      var ch := s.channels[token];
      CreateInChannelIs(k, ch, id, p, code, configs);
      ParallelAt(s, token);
      if TypeOf(code).Some? && Find(ch.objects.entries, ObjToken(k, p)) == |ch.objects.entries| {
        WithObjectParallel(ch, ObjToken(k, p), NewObject(TypeOf(code).value, id, configs));
      }
      UpdateConsistent(s, token, CreateInChannel(k, ch, id, p, code, configs).0);
    }
  }

  /** The constructor's stage can start a run; it links identifiers of default channels only. */
  lemma {:induction false} DefaultsConsistent(k: Classification, channels: nat, objects: bool)
    ensures Consistent(WithDefaults(k, channels, objects)) && WithDefaults(k, channels, objects).table == map[]
    ensures forall l | l in WithDefaults(k, channels, objects).linkers ::
      1 <= l.id <= channels && l.token == ChannelToken(k, DefaultTuple(l.id))
  {
    hide AddDefault, ChannelToken, DefaultTuple;
    if channels > 0 {
      DefaultsConsistent(k, channels - 1, objects);
      AddDefaultMeans(k, WithDefaults(k, channels - 1, objects), channels, objects);
    }
  }

  /** Every default channel holds one no-op object with identifier 0 and no classifiers, if objects are
      asked for and its identifier can reach it; otherwise it holds none. */
  lemma {:induction false} DefaultObjects(k: Classification, channels: nat, objects: bool, token: Token)
    requires token in WithDefaults(k, channels, objects).channels
    ensures WithDefaults(k, channels, objects).channels[token] ==
      if objects && token != Token(0xFFFF_FFFF)
      then
        var objectToken := k.objects(Pair(0, 0));
        Channel([Linker(0, objectToken)], Objects([Entry(objectToken, Obj(Noop, 0, []))], 0), 0)
      else Channel([], Objects([], 0), 0)
  {
    hide AddDefault, ChannelToken, Consistent, Position, DefaultTuple;
    if channels > 0 {
      var s := WithDefaults(k, channels - 1, objects);
      DefaultsConsistent(k, channels - 1, objects);
      AddDefaultMeans(k, s, channels, objects);
      AddDefaultObjects(k, s, channels, objects);
      if token in s.channels {
        DefaultObjects(k, channels - 1, objects, token);
      }
    }
  }

  /** Adding a default channel leaves the others alone and gives its own the object. */
  lemma AddDefaultObjects(k: Classification, s: Stage, i: nat, objects: bool)
    ensures var s', token := AddDefault(k, s, i, objects), ChannelToken(k, DefaultTuple(i));
      && (forall t | t in s.channels :: t in s'.channels && s'.channels[t] == s.channels[t])
      && (forall t | t in s'.channels && t !in s.channels :: t == token)
      && (token !in s.channels && token in s'.channels ==>
            s'.channels[token] ==
              if objects && token != Token(0xFFFF_FFFF)
              then
                var objectToken := k.objects(Pair(0, 0));
                Channel([Linker(0, objectToken)], Objects([Entry(objectToken, Obj(Noop, 0, []))], 0), 0)
              else Channel([], Objects([], 0), 0))
  {
    hide ChannelToken, DefaultTuple, CreateInChannel;
    var token := ChannelToken(k, DefaultTuple(i));
    if token !in s.channels && Position(s.linkers, i) == |s.linkers| {
      var s1 := AddChannel(k, s, i, DefaultTuple(i)).0;
      PositionIs(s1.linkers, i, |s.linkers|);
      CreateInChannelMeans(k, NO_OBJECTS, 0, Pair(0, 0), NOOP_CODE, []);
      assert [] + [Linker(0, k.objects(Pair(0, 0)))] == [Linker(0, k.objects(Pair(0, 0)))];
    }
  }

  lemma NewId(ls: seq<Linker>, id: int)
    requires forall l | l in ls :: l.id != id
    ensures Position(ls, id) == |ls|
  {}

  ghost predicate TokensDistinct(k: Classification, channels: nat) {
    forall i: nat, j: nat | 1 <= i < j <= channels ::
      ChannelToken(k, DefaultTuple(i)) != ChannelToken(k, DefaultTuple(j))
  }

  /** Of the default channels asked for, all are built if and only if their tokens are distinct. */
  lemma {:induction false} AllBuiltIffDistinct(k: Classification, channels: nat, objects: bool)
    ensures |WithDefaults(k, channels, objects).linkers| == channels <==> TokensDistinct(k, channels)
  {
    hide AddDefault, ChannelToken, Consistent, Position, DefaultTuple, TokensDistinct;
    AtMost(k, channels, objects);
    if channels == 0 {
      NoneClash(k);
    } else {
      var s := WithDefaults(k, channels - 1, objects);
      AtMost(k, channels - 1, objects);
      AllBuiltIffDistinct(k, channels - 1, objects);
      DefaultsConsistent(k, channels - 1, objects);
      AddDefaultMeans(k, s, channels, objects);
      NewId(s.linkers, channels);
      KeysAreLinked(s);
      if TokensDistinct(k, channels) { DistinctShrinks(k, channels); }
      if |s.linkers| == channels - 1 {
        AllLinked(k, channels - 1, objects);
        DistinctGrows(k, channels, s.linkers);
      }
    }
  }

  lemma NoneClash(k: Classification)
    ensures TokensDistinct(k, 0)
  {}

  lemma DistinctShrinks(k: Classification, channels: nat)
    requires channels > 0 && TokensDistinct(k, channels)
    ensures TokensDistinct(k, channels - 1)
  {
    hide ChannelToken, DefaultTuple;
  }

  lemma DistinctGrows(k: Classification, channels: nat, ls: seq<Linker>)
    requires channels > 0 && TokensDistinct(k, channels - 1)
    requires forall l | l in ls :: 1 <= l.id < channels && l.token == ChannelToken(k, DefaultTuple(l.id))
    requires forall i: nat | 1 <= i < channels :: Linker(i, ChannelToken(k, DefaultTuple(i))) in ls
    ensures TokensDistinct(k, channels) <==> forall l | l in ls :: l.token != ChannelToken(k, DefaultTuple(channels))
  {
    hide ChannelToken, DefaultTuple;
  }

  /** When all are built, each is linked. */
  lemma {:induction false} AllLinked(k: Classification, channels: nat, objects: bool)
    requires |WithDefaults(k, channels, objects).linkers| == channels
    ensures forall i: nat | 1 <= i <= channels ::
      Linker(i, ChannelToken(k, DefaultTuple(i))) in WithDefaults(k, channels, objects).linkers
  {
    hide AddDefault, ChannelToken, Consistent, Position, DefaultTuple;
    if channels > 0 {
      var s := WithDefaults(k, channels - 1, objects);
      DefaultsConsistent(k, channels - 1, objects);
      AddDefaultMeans(k, s, channels, objects);
      AtMost(k, channels - 1, objects);
      AllLinked(k, channels - 1, objects);
    }
  }

  lemma {:induction false} AtMost(k: Classification, channels: nat, objects: bool)
    ensures |WithDefaults(k, channels, objects).linkers| <= channels
  {
    hide AddDefault, ChannelToken, Consistent, Position, DefaultTuple;
    if channels > 0 {
      AtMost(k, channels - 1, objects);
      DefaultsConsistent(k, channels - 1, objects);
      AddDefaultMeans(k, WithDefaults(k, channels - 1, objects), channels, objects);
    }
  }

  /** If all default channels have one token, only the first is built. */
  lemma {:induction false} OneIfAllClash(k: Classification, channels: nat, objects: bool)
    requires channels > 0
    requires forall i: nat | 1 <= i <= channels ::
      ChannelToken(k, DefaultTuple(i)) == ChannelToken(k, DefaultTuple(1))
    ensures WithDefaults(k, channels, objects).linkers == [Linker(1, ChannelToken(k, DefaultTuple(1)))]
  {
    hide AddDefault, ChannelToken, Consistent, Position, DefaultTuple;
    var s := WithDefaults(k, channels - 1, objects);
    DefaultsConsistent(k, channels - 1, objects);
    AddDefaultMeans(k, s, channels, objects);
    NewId(s.linkers, channels);
    KeysAreLinked(s);
    if channels > 1 {
      OneIfAllClash(k, channels - 1, objects);
      assert Linker(1, ChannelToken(k, DefaultTuple(1))) in s.linkers;
    }
  }

  /** Hashing without the workflow classifier, as by default: however many channels are asked for, one
      is built. */
  lemma OneDefaultChannel(f: Flags, g: ObjectFlags, channels: nat, objects: bool)
    requires !f.workflow && channels > 0
    ensures |WithDefaults(Hashed(f, g), channels, objects).linkers| == 1
  {
    hide WithDefaults, Text, MurmurX86_32.Hash;
    forall i: nat | 1 <= i <= channels
      ensures ChannelToken(Hashed(f, g), DefaultTuple(i)) == ChannelToken(Hashed(f, g), DefaultTuple(1))
    {
      TextUnambiguous(f, DefaultTuple(i), DefaultTuple(1));
    }
    OneIfAllClash(Hashed(f, g), channels, objects);
  }

  /** Hashing the workflow classifier, alone or with others: up to nine default channels are all built. */
  lemma NineDefaultChannels(f: Flags, g: ObjectFlags, channels: nat, objects: bool)
    requires f.workflow && channels <= 9
    ensures |WithDefaults(Hashed(f, g), channels, objects).linkers| == channels
  {
    hide WithDefaults, ChannelToken, Hashed, DefaultTuple;
    forall i: nat, j: nat | 1 <= i < j <= channels
      ensures ChannelToken(Hashed(f, g), DefaultTuple(i)) != ChannelToken(Hashed(f, g), DefaultTuple(j))
    {
      OneDigitApart(f, g, i, j);
    }
    AllBuiltIffDistinct(Hashed(f, g), channels, objects);
  }

  /** The texts of two such channels differ in their first character only. */
  lemma OneDigitApart(f: Flags, g: ObjectFlags, i: nat, j: nat)
    requires f.workflow && i < 10 && j < 10 && i != j
    ensures ChannelToken(Hashed(f, g), DefaultTuple(i)) != ChannelToken(Hashed(f, g), DefaultTuple(j))
  {
    FirstCharacter(f, i);
    FirstCharacter(f, j);
    DecimalDiffers(i, j);
    hide Text, TokenOf, Decimal, DefaultTuple, DifferInOneUnit, Rest;
    OneCharacter(Decimal(i), Decimal(j), Rest(f));
    TokensApart(Pick(f), DefaultTuple(i), DefaultTuple(j));
  }

  /** What follows the workflow in the text of a default channel. */
  function Rest(f: Flags): Message {
    (if f.opType then [BAR] + Decimal(0) else []) + if f.context then [BAR] + Decimal(0) else []
  }

  lemma FirstCharacter(f: Flags, i: nat)
    requires f.workflow && i < 10
    ensures Text(Pick(f), DefaultTuple(i)) == Decimal(i) + Rest(f) && |Decimal(i)| == 1
  {
    assert DefaultTuple(i) == Tuple(i, 0, 0);
    assert |Decimal(i)| == 1;
    hide Decimal;
    assert Text(Pick(f), Tuple(i, 0, 0)) == Decimal(i) + Rest(f);
  }

  lemma DecimalDiffers(i: nat, j: nat)
    requires i != j
    ensures Decimal(i) != Decimal(j)
  {
    if Decimal(i) == Decimal(j) {
      DecimalInjective(i, j);
    }
  }

  lemma OneCharacter(a: Message, b: Message, rest: Message)
    requires |a| == 1 && |b| == 1 && a != b
    ensures DifferInOneUnit(a + rest, b + rest, 4)
  {
    var m, m' := a + rest, b + rest;
    assert m[0] != m'[0];
    if |m| >= 4 {
      assert m[..0] == m'[..0];
      assert m[4..] == rest[3..] && m'[4..] == rest[3..];
      assert DifferInBlock(m, m', 4, 0);
    } else {
      assert m[..0] == m'[..0];
      assert DifferInTail(m, m', 4);
    }
  }
}
