/** A data-plane stage as a value: channels by token, identifiers linked to tokens, and the
    housekeeping rules.  The operations follow the core; the lemmas say what holds in every stage that
    a run can reach. */
module Stages {
  import opened Common
  import opened Requests
  import opened Differentiation
  import opened EnforcementObjects
  import opened HousekeepingTables

  // ---------- enforcement objects ----------

  datatype ObjectType = Drl | Noop

  /** Every call an object received, in order; its whole state is a function of them. */
  datatype Event = Handled(t: Ticket) | Applied(c: Config)
  datatype Config = Config(config: int, values: seq<int>)
  datatype Obj = Obj(kind: ObjectType, id: int, past: seq<Event>)

  function ConfigStatus(kind: ObjectType, config: int): Status {
    if kind.Noop? || config == INIT || config == RATE || config == REFILL then OK else NotSupported
  }

  const MACHINE: Kind<Obj, Config> := Kind(
    (o: Obj, t: Ticket, r: Result) => (o.(past := o.past + [Handled(t)]), Answered(r, t)),
    (o: Obj, c: Config) => (o.(past := o.past + [Applied(c)]), ConfigStatus(o.kind, c.config)))

  lemma MachineWellBehaved()
    ensures WellBehaved(MACHINE)
  {
    assert forall o: Obj, t, r :: MACHINE.enforce(o, t, r).1 == Answered(r, t);
  }

  // ---------- the stage ----------

  datatype Linker = Linker(id: int, token: Token)
  datatype Channel = Channel(linkers: seq<Linker>, objects: Objects<Obj>, issued: nat)
  datatype Stage = Stage(linkers: seq<Linker>, channels: map<Token, Channel>, table: Table)

  const NO_OBJECTS: Channel := Channel([], Objects([], 0), 0)
  const EMPTY_STAGE := Stage([], map[], map[])

  /** How classifiers become the tokens of channels and objects; fixed while the stage runs.  Nothing is
      assumed about it: the results hold for every hash and every choice of classifiers. */
  datatype Classification = Classification(channels: Tuple -> Token, objects: Selector)

  /** The classification that a stage uses: hashing the selected classifiers. */
  function Hashed(f: Flags, g: ObjectFlags): Classification {
    Classification((x: Tuple) => TokenOf(Pick(f), x), (p: Pair) => ObjectToken(PickObject(g), p))
  }

  function ChannelToken(k: Classification, x: Tuple): Token {
    k.channels(x)
  }

  function ObjToken(k: Classification, p: Pair): Token {
    k.objects(p)
  }

  /** What a search by identifier returns when it finds nothing: -1 as an unsigned 32-bit value. */
  const NOT_FOUND: Token := Token(0xFFFF_FFFF)

  /** The first linker with the identifier, or the length of the list. */
  function Position(ls: seq<Linker>, id: int): (i: nat)
    ensures i <= |ls|
    ensures i < |ls| ==> ls[i].id == id
    ensures forall j | 0 <= j < i :: ls[j].id != id
  {
    if |ls| == 0 || ls[0].id == id then 0 else 1 + Position(ls[1..], id)
  }

  lemma PositionIs(ls: seq<Linker>, id: int, i: nat)
    requires i <= |ls|
    requires i < |ls| ==> ls[i].id == id
    requires forall j | 0 <= j < i :: ls[j].id != id
    ensures Position(ls, id) == i
  {}

  function Lookup(ls: seq<Linker>, id: int): Token {
    var i := Position(ls, id);
    if i < |ls| then ls[i].token else NOT_FOUND
  }

  function AddChannel(k: Classification, s: Stage, id: int, x: Tuple): (Stage, Status) {
    var token := ChannelToken(k, x);
    if token !in s.channels && Position(s.linkers, id) == |s.linkers| then
      (s.(linkers := s.linkers + [Linker(id, token)], channels := s.channels[token := NO_OBJECTS]), OK)
    else
      (s, Failed)
  }

  /** An object type arrives as a `long` that is cast to an `int`. */
  function TypeOf(code: int): Option<ObjectType> {
    if code % 0x1_0000_0000 == 1 then Some(Drl)
    else if code % 0x1_0000_0000 == 0 then Some(Noop)
    else None
  }

  /** ChannelDefault's create_enforcement_object. */
  function CreateInChannel(k: Classification, ch: Channel, id: int, p: Pair, code: int, configs: seq<int>)
    : (Channel, Status)
  {
    var token := ObjToken(k, p);
    if TypeOf(code).None? then (ch, NotSupported)
    else
      var kind := TypeOf(code).value;
      var (objects, status) := Create(ch.objects, token, Obj(kind, id, []));
      if status != OK then (ch.(objects := objects), status)
      else
        var linked := ch.(linkers := ch.linkers + [Linker(id, token)], objects := objects);
        if |configs| > 0 && kind.Drl? then
          var (configured, status') := Configure(MACHINE, objects, token, Config(INIT, configs));
          (linked.(objects := configured), status')
        else (linked, OK)
  }

  function AddObject(k: Classification, s: Stage, channelId: int, id: int, p: Pair, code: int, configs: seq<int>)
    : (Stage, Status)
  {
    var token := Lookup(s.linkers, channelId);
    if token == NOT_FOUND then (s, Failed)
    else if token !in s.channels then (s, Failed)
    else
      var (ch, status) := CreateInChannel(k, s.channels[token], id, p, code, configs);
      (s.(channels := s.channels[token := ch]), status)
  }

  function ConfigureInChannel(ch: Channel, id: int, c: Config): (Channel, Status) {
    var token := Lookup(ch.linkers, id);
    if token == NOT_FOUND then (ch, Failed)
    else
      var (objects, status) := Configure(MACHINE, ch.objects, token, c);
      (ch.(objects := objects), status)
  }

  /** The control path: an enforcement rule addressed by channel and object identifiers. */
  function Employ(s: Stage, channelId: int, id: int, c: Config): (Stage, Status) {
    var token := Lookup(s.linkers, channelId);
    if token == NOT_FOUND then (s, Failed)
    else if token !in s.channels then (s, Failed)
    else
      var (ch, status) := ConfigureInChannel(s.channels[token], id, c);
      (s.(channels := s.channels[token := ch]), status)
  }

  function TupleOfContext(c: Requests.Context): Tuple {
    Tuple(ToClassifier(c.workflow), ToClassifier(c.opType), ToClassifier(c.opContext))
  }

  /** ChannelDefault's channel_enforce on the fast path. */
  function EnforceInChannel(k: Classification, ch: Channel, c: Requests.Context, buffer: Bytes, r: Result)
    : (Channel, Result)
  {
    var t := BuildTicket(c, ch.issued % TWO_64, buffer);
    var (objects, r') := Enforce(MACHINE, k.objects, ch.objects, t, r.(ticketId := t.id));
    (ch.(objects := objects, issued := ch.issued + 1), r')
  }

  /** The data path: a request finds its channel and object by hashing its classifiers. */
  function EnforceRequest(k: Classification, s: Stage, c: Requests.Context, buffer: Bytes, r: Result): (Stage, Result) {
    var token := ChannelToken(k, TupleOfContext(c));
    if token in s.channels then
      var (ch, r') := EnforceInChannel(k, s.channels[token], c, buffer, r);
      (s.(channels := s.channels[token := ch]), r')
    else (s, r)
  }

  /** The answer of a channel, whichever object acts: success, the ticket's number, and the content of
      the request, if it has any. */
  lemma ChannelAnswers(k: Classification, ch: Channel, c: Requests.Context, buffer: Bytes, r: Result)
    ensures var answer := EnforceInChannel(k, ch, c, buffer, r).1;
      && answer.status == Success
      && answer.ticketId == ch.issued % 0x1_0000_0000_0000_0000
      && (answer.hasContent <==> |buffer| > 0)
      && (|buffer| > 0 ==> answer.contentSize == |buffer| && answer.content == buffer)
      && (|buffer| == 0 ==> answer.contentSize == r.contentSize && answer.content == r.content)
  {
    hide Find, TicketToken;
    var t := BuildTicket(c, ch.issued % TWO_64, buffer);
    EnforceRemembers(k.objects, ch.objects, t, r.(ticketId := t.id));
  }

  /** The answer of the stage: its channel's, or none when no channel has the token. */
  lemma StageAnswers(k: Classification, s: Stage, c: Requests.Context, buffer: Bytes, r: Result)
    ensures var answer := EnforceRequest(k, s, c, buffer, r).1;
      var token := ChannelToken(k, TupleOfContext(c));
      if token !in s.channels then answer == r
      else
        && answer.status == Success
        && answer.ticketId == s.channels[token].issued % 0x1_0000_0000_0000_0000
        && (answer.hasContent <==> |buffer| > 0)
        && (|buffer| > 0 ==> answer.contentSize == |buffer| && answer.content == buffer)
        && (|buffer| == 0 ==> answer.contentSize == r.contentSize && answer.content == r.content)
  {
    hide EnforceInChannel, ChannelToken;
    var token := ChannelToken(k, TupleOfContext(c));
    if token in s.channels {
      ChannelAnswers(k, s.channels[token], c, buffer, r);
    }
  }

  /** The classifiers of a request reach the hashes as unsigned 32-bit values, each in its own place. */
  lemma RequestClassified(c: Requests.Context)
    ensures var x := TupleOfContext(c);
      && (0 <= c.workflow < 0x1_0000_0000 ==> x.workflow == c.workflow)
      && (0 <= c.opType < 0x1_0000_0000 ==> x.opType == c.opType)
      && (0 <= c.opContext < 0x1_0000_0000 ==> x.context == c.opContext)
      && (-0x1_0000_0000 <= c.workflow < 0 ==> x.workflow == c.workflow + 0x1_0000_0000)
      && (-0x1_0000_0000 <= c.opType < 0 ==> x.opType == c.opType + 0x1_0000_0000)
      && (-0x1_0000_0000 <= c.opContext < 0 ==> x.context == c.opContext + 0x1_0000_0000)
  {}

  // ---------- housekeeping rules ----------

  /** Rule types that are not supported throw. */
  datatype Outcome = Returned(status: Status) | LogicError

  function TupleOf(r: Rule): Tuple {
    Tuple(ToClassifier(Property(r, 1)), ToClassifier(Property(r, 2)), ToClassifier(Property(r, 3)))
  }

  function PairOf(r: Rule): Pair {
    Pair(ToClassifier(Property(r, 1)), ToClassifier(Property(r, 2)))
  }

  predicate CreateRule(r: Rule) {
    r.operation.CreateChannel? || r.operation.CreateObject?
  }

  /** What a create rule asks for. */
  function Carry(k: Classification, s: Stage, r: Rule): (Stage, Status)
    requires CreateRule(r)
  {
    if r.operation.CreateChannel? then AddChannel(k, s, r.channelId, TupleOf(r))
    else AddObject(k, s, r.channelId, r.objectId, PairOf(r), Property(r, 3), PropertiesFrom(r, 4))
  }

  function ExecuteRule(k: Classification, s: Stage, id: nat): (Stage, Outcome) {
    if id !in s.table then (s, Returned(NotFound))
    else if s.table[id].enforced then (s, Returned(Enforced))
    else if !CreateRule(s.table[id]) then (s, LogicError)
    else
      var (s', status) := Carry(k, s, s.table[id]);
      (if status == OK then s'.(table := Mark(s'.table, id).0) else s', Returned(status))
  }

  /** The rest of a pass over the table in the order `ids`; `last` is the outcome so far. */
  function ExecuteRules(k: Classification, s: Stage, ids: seq<nat>, last: Outcome): (Stage, Outcome)
    decreases |ids|
  {
    if |ids| == 0 then (s, last)
    else if ids[0] in s.table && !s.table[ids[0]].enforced then
      var (s', outcome) := ExecuteRule(k, s, ids[0]);
      if outcome == LogicError || outcome == Returned(Failed) then (s', outcome)
      else ExecuteRules(k, s', ids[1..], outcome)
    else ExecuteRules(k, s, ids[1..], last)
  }

  /** execute_housekeeping_rules; the hash table fixes the order of iteration, whatever it is. */
  function ExecuteAll(k: Classification, s: Stage, order: seq<nat>): (Stage, Outcome) {
    ExecuteRules(k, s, order, Returned(Failed))
  }

  /** An order lists every rule. */
  ghost predicate Covers(order: seq<nat>, t: Table) {
    forall id | id in t :: id in order
  }

  // ---------- runs ----------

  datatype Step =
    | InsertRule(id: nat, operation: Operation, channelId: int, objectId: int, properties: seq<int>)
    | Execute(id: nat)
    | EmployRule(channelId: int, objectId: int, c: Config)
    | Request(context: Requests.Context, buffer: Bytes, r: Result)

  function Next(k: Classification, s: Stage, e: Step): Stage {
    match e
    case InsertRule(id, operation, channelId, objectId, properties) =>
      s.(table := Insert(s.table, id, Rule(operation, channelId, objectId, properties, false)).0)
    case Execute(id) => ExecuteRule(k, s, id).0
    case EmployRule(channelId, objectId, c) => Employ(s, channelId, objectId, c).0
    case Request(context, buffer, r) => EnforceRequest(k, s, context, buffer, r).0
  }

  function After(k: Classification, s: Stage, steps: seq<Step>): Stage
    decreases |steps|
  {
    if |steps| == 0 then s else After(k, Next(k, s, steps[0]), steps[1..])
  }

  lemma {:induction false} AfterAppend(k: Classification, s: Stage, a: seq<Step>, b: seq<Step>)
    ensures After(k, s, a + b) == After(k, After(k, s, a), b)
    decreases |a|
  {
    hide Next;
    if |a| == 0 {
      assert a + b == b;
    } else {
      assert (a + b)[1..] == a[1..] + b;
      AfterAppend(k, Next(k, s, a[0]), a[1..], b);
    }
  }

  /** A pass over the table is a run of single executions. */
  lemma {:induction false} PassIsRun(k: Classification, s: Stage, ids: seq<nat>, last: Outcome)
    returns (steps: seq<Step>)
    ensures forall e | e in steps :: e.Execute?
    ensures After(k, s, steps) == ExecuteRules(k, s, ids, last).0
    decreases |ids|
  {
    hide ExecuteRule;
    if |ids| == 0 {
      steps := [];
    } else if ids[0] in s.table && !s.table[ids[0]].enforced {
      var (s', outcome) := ExecuteRule(k, s, ids[0]);
      if outcome == LogicError || outcome == Returned(Failed) {
        steps := [Execute(ids[0])];
        assert After(k, s', steps[1..]) == s';
      } else {
        var rest := PassIsRun(k, s', ids[1..], outcome);
        steps := [Execute(ids[0])] + rest;
        assert steps[1..] == rest;
      }
    } else {
      steps := PassIsRun(k, s, ids[1..], last);
    }
  }

  // ---------- the indexes agree ----------

  ghost predicate DistinctLinkers(ls: seq<Linker>) {
    && (forall i, j | 0 <= i < j < |ls| :: ls[i].id != ls[j].id)
    && (forall i, j | 0 <= i < j < |ls| :: ls[i].token != ls[j].token)
  }

  /** Object linkers run parallel to the object vector, with distinct tokens. */
  ghost predicate Parallel(ch: Channel) {
    && |ch.linkers| == |ch.objects.entries|
    && (forall i | 0 <= i < |ch.linkers| ::
         && ch.linkers[i].token == ch.objects.entries[i].token
         && ch.linkers[i].id == ch.objects.entries[i].obj.id)
    && DistinctTokens(ch.objects.entries)
  }

  ghost predicate AllLinked(s: Stage) {
    forall token | token in s.channels :: exists i | 0 <= i < |s.linkers| :: s.linkers[i].token == token
  }

  /** Linkers and channels are in bijection; every channel's own indexes agree. */
  ghost predicate Consistent(s: Stage) {
    && DistinctLinkers(s.linkers)
    && (forall i | 0 <= i < |s.linkers| :: s.linkers[i].token in s.channels)
    && AllLinked(s)
    && (forall token | token in s.channels :: Parallel(s.channels[token]))
  }

  /** One more event in the past of the object at position i. */
  function Remember(objects: Objects<Obj>, i: nat, event: Event): Objects<Obj>
    requires i < |objects.entries|
  {
    var o := objects.entries[i].obj;
    objects.(entries := objects.entries[i := objects.entries[i].(obj := o.(past := o.past + [event]))])
  }

  lemma ConfigureRemembers(objects: Objects<Obj>, token: Token, c: Config)
    ensures var i := Find(objects.entries, token);
      Configure(MACHINE, objects, token, c) ==
        if i < |objects.entries|
        then (Remember(objects, i, Applied(c)), ConfigStatus(objects.entries[i].obj.kind, c.config))
        else (objects, Failed)
  {
    hide ConfigStatus, Find;
  }

  lemma EnforceRemembers(select: Selector, objects: Objects<Obj>, t: Ticket, r: Result)
    ensures var i := Find(objects.entries, TicketToken(select, t));
      Enforce(MACHINE, select, objects, t, r) ==
        if i < |objects.entries|
        then (Remember(objects, i, Handled(t)), Answered(r, t))
        else (objects.(unmatched := objects.unmatched + 1), Answered(r, t))
  {
    hide Find, TicketToken, Answered;
  }

  lemma RememberParallel(ch: Channel, i: nat, event: Event)
    requires Parallel(ch) && i < |ch.objects.entries|
    ensures Parallel(ch.(objects := Remember(ch.objects, i, event)))
  {}

  /** A new object whose token is free, together with its linker. */
  function WithObject(ch: Channel, id: int, token: Token, o: Obj): Channel {
    ch.(linkers := ch.linkers + [Linker(id, token)],
        objects := ch.objects.(entries := ch.objects.entries + [Entry(token, o)]))
  }

  lemma WithObjectParallel(ch: Channel, token: Token, o: Obj)
    requires Parallel(ch) && Find(ch.objects.entries, token) == |ch.objects.entries|
    ensures Parallel(WithObject(ch, o.id, token, o))
  {}

  /** The object as it stands right after its creation: a rate limiter is initialised when the rule
      brings configurations. */
  function NewObject(kind: ObjectType, id: int, configs: seq<int>): Obj {
    Obj(kind, id, if |configs| > 0 && kind.Drl? then [Applied(Config(INIT, configs))] else [])
  }

  /** Creating an object, in the model's terms. */
  lemma CreateInChannelIs(k: Classification, ch: Channel, id: int, p: Pair, code: int, configs: seq<int>)
    ensures CreateInChannel(k, ch, id, p, code, configs) ==
      if TypeOf(code).None? then (ch, NotSupported)
      else if Find(ch.objects.entries, ObjToken(k, p)) < |ch.objects.entries| then (ch, Failed)
      else (WithObject(ch, id, ObjToken(k, p), NewObject(TypeOf(code).value, id, configs)), OK)
  {
    hide ObjToken, Configure;
    var token := ObjToken(k, p);
    if TypeOf(code).Some? && Find(ch.objects.entries, token) == |ch.objects.entries| {
      var o := Obj(TypeOf(code).value, id, []);
      var objects := ch.objects.(entries := ch.objects.entries + [Entry(token, o)]);
      FindIs(objects.entries, token, |ch.objects.entries|);
      ConfigureRemembers(objects, token, Config(INIT, configs));
      if |configs| > 0 && o.kind.Drl? {
        assert o.past + [Applied(Config(INIT, configs))] == [Applied(Config(INIT, configs))];
        assert Remember(objects, |ch.objects.entries|, Applied(Config(INIT, configs))).entries
            == ch.objects.entries + [Entry(token, NewObject(o.kind, id, configs))];
      }
    }
  }

  ghost predicate NoEntryWith(ch: Channel, token: Token) {
    forall e | e in ch.objects.entries :: e.token != token
  }

  /** Creating an object is all or nothing.  Type 1, modulo 2^32, is a rate limiter, initialised when there
      are configurations; type 0 is a no-op; no other type is supported.  With a free token exactly
      one such object and its linker are added; otherwise nothing changes. */
  lemma CreateInChannelMeans(k: Classification, ch: Channel, id: int, p: Pair, code: int, configs: seq<int>)
    ensures var kind := code % 0x1_0000_0000;
      var token := k.objects(p);
      var entries := ch.objects.entries;
      var past := if kind == 1 && |configs| > 0 then [Applied(Config(1, configs))] else [];
      CreateInChannel(k, ch, id, p, code, configs) ==
        if kind != 0 && kind != 1 then (ch, NotSupported)
        else if !NoEntryWith(ch, token) then (ch, Failed)
        else
          (Channel(
             ch.linkers + [Linker(id, token)],
             ch.objects.(entries := entries + [Entry(token, Obj(if kind == 1 then Drl else Noop, id, past))]),
             ch.issued),
           OK)
  {
    CreateInChannelIs(k, ch, id, p, code, configs);
    var i := Find(ch.objects.entries, k.objects(p));
    if i < |ch.objects.entries| {
      assert ch.objects.entries[i] in ch.objects.entries;
    }
    hide CreateInChannel;
  }

  lemma UpdateSame<K, V>(m: map<K, V>, k: K)
    requires k in m
    ensures m[k := m[k]] == m
  {}

  // ---------- rules are all or nothing ----------

  /** What a create rule needs: a channel's identifier and token must be free; an object's channel must
      be known under a token that is not the not-found value, its type supported, its token free. */
  predicate Creatable(k: Classification, s: Stage, r: Rule) {
    match r.operation
    case CreateChannel =>
      ChannelToken(k, TupleOf(r)) !in s.channels && Position(s.linkers, r.channelId) == |s.linkers|
    case CreateObject =>
      && ChannelReached(s, r.channelId)
      && TypeOf(Property(r, 3)).Some?
      && ObjectTokenFree(s.channels[Lookup(s.linkers, r.channelId)], ObjToken(k, PairOf(r)))
    case _ => false
  }

  predicate ChannelReached(s: Stage, channelId: int) {
    var token := Lookup(s.linkers, channelId);
    token != NOT_FOUND && token in s.channels
  }

  predicate ObjectTokenFree(ch: Channel, token: Token) {
    Find(ch.objects.entries, token) == |ch.objects.entries|
  }

  function WithChannel(s: Stage, id: int, token: Token): Stage {
    s.(linkers := s.linkers + [Linker(id, token)], channels := s.channels[token := NO_OBJECTS])
  }

  /** The stage a create rule builds: exactly one new channel, or one new object in its channel. */
  function Created(k: Classification, s: Stage, r: Rule): Stage
    requires Creatable(k, s, r)
  {
    if r.operation.CreateChannel? then WithChannel(s, r.channelId, ChannelToken(k, TupleOf(r)))
    else
      var token := Lookup(s.linkers, r.channelId);
      var o := NewObject(TypeOf(Property(r, 3)).value, r.objectId, PropertiesFrom(r, 4));
      s.(channels := s.channels[token := WithObject(s.channels[token], r.objectId, ObjToken(k, PairOf(r)), o)])
  }

  /** An object rule whose channel can be reached but whose type is not supported. */
  predicate Unsupported(s: Stage, r: Rule) {
    r.operation.CreateObject? && ChannelReached(s, r.channelId) && TypeOf(Property(r, 3)).None?
  }

  /** Executing a pending create rule is all or nothing.  It succeeds if and only if it can create what
      it asks for; then exactly that is added and the rule is marked.  Otherwise nothing changes. */
  lemma AllOrNothing(k: Classification, s: Stage, id: nat)
    requires id in s.table && !s.table[id].enforced && CreateRule(s.table[id])
    ensures var r := s.table[id];
      ExecuteRule(k, s, id) ==
        if Creatable(k, s, r)
        then (Created(k, s, r).(table := s.table[id := r.(enforced := true)]), Returned(OK))
        else (s, Returned(if Unsupported(s, r) then NotSupported else Failed))
  {
    hide ChannelToken, ObjToken, TupleOf, PairOf, Property, PropertiesFrom, Lookup, Find, NewObject, TypeOf,
         CreateInChannel, WithObject;
    var r := s.table[id];
    if r.operation.CreateObject? && ChannelReached(s, r.channelId) {
      var token := Lookup(s.linkers, r.channelId);
      CreateInChannelIs(k, s.channels[token], r.objectId, PairOf(r), Property(r, 3), PropertiesFrom(r, 4));
      UpdateSame(s.channels, token);
    }
  }

  /** The property of a rule at an index as an unsigned 32-bit value; a missing one counts as -1. */
  function Unsigned(properties: seq<int>, index: nat): Classifier {
    (if index < |properties| then properties[index] else -1) % 0x1_0000_0000
  }

  ghost predicate NoLinkerWith(ls: seq<Linker>, id: int) {
    forall l | l in ls :: l.id != id
  }

  /** A pending rule for a channel: properties 1, 2 and 3 are its workflow, operation type and operation
      context.  With identifier and token free it adds one empty channel; otherwise it fails. */
  lemma ChannelRuleMeans(k: Classification, s: Stage, id: nat)
    requires id in s.table && !s.table[id].enforced && s.table[id].operation.CreateChannel?
    ensures var r := s.table[id];
      var token := k.channels(Tuple(Unsigned(r.properties, 1), Unsigned(r.properties, 2), Unsigned(r.properties, 3)));
      ExecuteRule(k, s, id) ==
        if token in s.channels || !NoLinkerWith(s.linkers, r.channelId) then (s, Returned(Failed))
        else
          (Stage(
             s.linkers + [Linker(r.channelId, token)],
             s.channels[token := Channel([], Objects([], 0), 0)],
             s.table[id := r.(enforced := true)]),
           Returned(OK))
  {
    var r := s.table[id];
    assert TupleOf(r) == Tuple(Unsigned(r.properties, 1), Unsigned(r.properties, 2), Unsigned(r.properties, 3));
    NoLinkerPosition(s.linkers, r.channelId);
    AllOrNothing(k, s, id);
    hide ExecuteRule, TupleOf, Unsigned, Position;
  }

  lemma NoLinkerPosition(ls: seq<Linker>, id: int)
    ensures NoLinkerWith(ls, id) <==> Position(ls, id) == |ls|
  {
    if Position(ls, id) < |ls| {
      assert ls[Position(ls, id)] in ls;
    }
  }

  /** A pending rule for an object in a channel that its identifier reaches: properties 1 and 2 are its
      operation type and context, property 3 its type, the rest its configurations. */
  lemma ObjectRuleMeans(k: Classification, s: Stage, id: nat)
    requires id in s.table && !s.table[id].enforced && s.table[id].operation.CreateObject?
    requires var token := Lookup(s.linkers, s.table[id].channelId); token in s.channels && token != Token(0xFFFF_FFFF)
    ensures var r := s.table[id];
      var token := Lookup(s.linkers, r.channelId);
      var ch := s.channels[token];
      var objectToken := k.objects(Pair(Unsigned(r.properties, 1), Unsigned(r.properties, 2)));
      var kind := Unsigned(r.properties, 3);
      var configs := if |r.properties| > 4 then r.properties[4..] else [];
      var past := if kind == 1 && |configs| > 0 then [Applied(Config(1, configs))] else [];
      var o := Obj(if kind == 1 then Drl else Noop, r.objectId, past);
      ExecuteRule(k, s, id) ==
        if kind != 0 && kind != 1 then (s, Returned(NotSupported))
        else if !NoEntryWith(ch, objectToken) then (s, Returned(Failed))
        else
          (Stage(
             s.linkers,
             s.channels[token := Channel(
               ch.linkers + [Linker(r.objectId, objectToken)],
               ch.objects.(entries := ch.objects.entries + [Entry(objectToken, o)]),
               ch.issued)],
             s.table[id := r.(enforced := true)]),
           Returned(OK))
  {
    var r := s.table[id];
    var token := Lookup(s.linkers, r.channelId);
    assert PairOf(r) == Pair(Unsigned(r.properties, 1), Unsigned(r.properties, 2));
    assert Property(r, 3) % 0x1_0000_0000 == Unsigned(r.properties, 3);
    assert PropertiesFrom(r, 4) == if |r.properties| > 4 then r.properties[4..] else [];
    CreateInChannelMeans(k, s.channels[token], r.objectId, PairOf(r), Property(r, 3), PropertiesFrom(r, 4));
    UpdateSame(s.channels, token);
    hide CreateInChannel, Lookup, PairOf, Property, PropertiesFrom, Unsigned, NoEntryWith;
  }

  /** When the rule's identifier reaches no channel, it fails; a rule that is missing or done is reported so;
      any other operation throws.  None of these changes anything. */
  lemma OtherRulesMean(k: Classification, s: Stage, id: nat)
    ensures id !in s.table ==> ExecuteRule(k, s, id) == (s, Returned(NotFound))
    ensures id in s.table && s.table[id].enforced ==> ExecuteRule(k, s, id) == (s, Returned(Enforced))
    ensures id in s.table && !s.table[id].enforced ==>
      var r := s.table[id];
      && (!r.operation.CreateChannel? && !r.operation.CreateObject? ==> ExecuteRule(k, s, id) == (s, LogicError))
      && (r.operation.CreateObject? && NoLinkerWith(s.linkers, r.channelId) ==>
            ExecuteRule(k, s, id) == (s, Returned(Failed)))
      && (r.operation.CreateObject? && Lookup(s.linkers, r.channelId) == Token(0xFFFF_FFFF) ==>
            ExecuteRule(k, s, id) == (s, Returned(Failed)))
  {
    if id in s.table {
      NoLinkerPosition(s.linkers, s.table[id].channelId);
    }
    hide CreateInChannel;
  }

  // ---------- control path and data path ----------

  /** An object: the token of its channel and its position there. */
  datatype Target = Target(channel: Token, index: nat)

  predicate Hits(s: Stage, tg: Target) {
    tg.channel in s.channels && tg.index < |s.channels[tg.channel].objects.entries|
  }

  function TargetIn(s: Stage, channel: Token, object': Token): (tg: Option<Target>)
    ensures tg.Some? ==> Hits(s, tg.value)
  {
    if channel !in s.channels then None
    else
      var entries := s.channels[channel].objects.entries;
      var i := Find(entries, object');
      if i < |entries| then Some(Target(channel, i)) else None
  }

  /** What the control path reaches by identifiers. */
  function ControlTarget(s: Stage, channelId: int, id: int): (tg: Option<Target>)
    ensures tg.Some? ==> Hits(s, tg.value)
  {
    if !ChannelReached(s, channelId) then None
    else
      var token := Lookup(s.linkers, channelId);
      var objectToken := Lookup(s.channels[token].linkers, id);
      if objectToken == NOT_FOUND then None else TargetIn(s, token, objectToken)
  }

  /** What the data path reaches by hashing classifiers. */
  function DataTarget(k: Classification, s: Stage, x: Tuple): (tg: Option<Target>)
    ensures tg.Some? ==> Hits(s, tg.value)
  {
    TargetIn(s, ChannelToken(k, x), ObjToken(k, Pair(x.opType, x.context)))
  }

  function ObjectAt(s: Stage, tg: Target): Obj
    requires Hits(s, tg)
  {
    s.channels[tg.channel].objects.entries[tg.index].obj
  }

  /** The channel with one more event in the past of one object. */
  function Remembering(ch: Channel, i: nat, event: Event): Channel
    requires i < |ch.objects.entries|
  {
    ch.(objects := Remember(ch.objects, i, event))
  }

  /** An enforcement rule configures the object its identifiers reach, and nothing else; it fails
      without effect when they reach none. */
  lemma EmployMeans(s: Stage, channelId: int, id: int, c: Config)
    ensures Employ(s, channelId, id, c) ==
      match ControlTarget(s, channelId, id)
      case None => (s, Failed)
      case Some(tg) =>
        (s.(channels := s.channels[tg.channel := Remembering(s.channels[tg.channel], tg.index, Applied(c))]),
         ConfigStatus(ObjectAt(s, tg).kind, c.config))
  {
    hide Lookup, Find, ConfigStatus, Remember, Configure;
    var token := Lookup(s.linkers, channelId);
    if token in s.channels {
      var ch := s.channels[token];
      UpdateSame(s.channels, token);
      ConfigureRemembers(ch.objects, Lookup(ch.linkers, id), c);
    }
  }

  /** A no-op accepts every configuration; a rate limiter those with codes 1, 2 and 4. */
  lemma EmployStatus(s: Stage, channelId: int, id: int, c: Config)
    requires ControlTarget(s, channelId, id).Some?
    ensures var o := ObjectAt(s, ControlTarget(s, channelId, id).value);
      Employ(s, channelId, id, c).1 ==
        if o.kind.Noop? || c.config == 1 || c.config == 2 || c.config == 4 then OK else NotSupported
  {
    hide ControlTarget, Employ;
    EmployMeans(s, channelId, id, c);
  }

  /** A request is handled by the object its classifiers reach, and by nothing else; without a match in
      its channel it passes; without a channel nothing happens to it. */
  lemma RequestMeans(k: Classification, s: Stage, c: Requests.Context, buffer: Bytes, r: Result)
    ensures var x := TupleOfContext(c);
      var token := ChannelToken(k, x);
      EnforceRequest(k, s, c, buffer, r) ==
        if token !in s.channels then (s, r)
        else
          var ch := s.channels[token];
          var t := BuildTicket(c, ch.issued % TWO_64, buffer);
          var ch' := match DataTarget(k, s, x)
            case Some(tg) => Remembering(ch, tg.index, Handled(t))
            case None => ch.(objects := ch.objects.(unmatched := ch.objects.unmatched + 1));
          (s.(channels := s.channels[token := ch'.(issued := ch.issued + 1)]), Answered(r.(ticketId := t.id), t))
  {
    hide Find, ChannelToken, TokenOf, Remember, Enforce, Answered;
    var token := ChannelToken(k, TupleOfContext(c));
    if token in s.channels {
      var ch := s.channels[token];
      var t := BuildTicket(c, ch.issued % TWO_64, buffer);
      EnforceRemembers(k.objects, ch.objects, t, r.(ticketId := t.id));
    }
  }
}
