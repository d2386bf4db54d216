/** A channel of the stage in queueing mode: what the queueing protocol does to the stage's objects. */
module QueueingChannels {
  import opened Common
  import opened Requests
  import opened Differentiation
  import opened EnforcementObjects
  import opened Stages
  import Q = QueueProtocol

  /** The machine a channel runs in queueing mode. */
  function Machine(k: Classification): Q.Setup<Obj, Config> {
    Q.Setup(MACHINE, k.objects)
  }

  /** The calls among the inputs that are for the object with the token. */
  function Received(k: Classification, token: Token, inputs: seq<Q.Input<Obj, Config>>): seq<Event>
    decreases |inputs|
  {
    if |inputs| == 0 then []
    else
      Received(k, token, inputs[..|inputs| - 1]) + Call(k, token, inputs[|inputs| - 1])
  }

  /** The objects `b` are the objects `a`, each with the calls that the inputs hold for it, and perhaps
      more objects behind them. */
  ghost predicate Handed(k: Classification, a: Objects<Obj>, b: Objects<Obj>, inputs: seq<Q.Input<Obj, Config>>) {
    && DistinctTokens(b.entries)
    && |a.entries| <= |b.entries|
    && forall i | 0 <= i < |a.entries| ::
         b.entries[i] == WithCalls(a.entries[i], Received(k, a.entries[i].token, inputs))
  }

  function WithCalls(e: Entry<Obj>, calls: seq<Event>): Entry<Obj> {
    e.(obj := e.obj.(past := e.obj.past + calls))
  }

  /** What one more input adds. */
  function Call(k: Classification, token: Token, x: Q.Input<Obj, Config>): seq<Event> {
    match x
    case Request(t) => if TicketToken(k.objects, t) == token then [Handled(t)] else []
    case Ordered(Configuring(other, c)) => if other == token then [Applied(c)] else []
    case Ordered(Creating(_, _)) => []
  }

  lemma ReceivedGrows(k: Classification, token: Token, inputs: seq<Q.Input<Obj, Config>>, x: Q.Input<Obj, Config>)
    ensures Received(k, token, inputs + [x]) == Received(k, token, inputs) + Call(k, token, x)
  {
    assert (inputs + [x])[..|inputs|] == inputs;
  }

  /** An input whose token no object has, or that only creates, hands nothing to the objects there are. */
  lemma NothingHanded(
    k: Classification, a: Objects<Obj>, b: Objects<Obj>, b': Objects<Obj>,
    inputs: seq<Q.Input<Obj, Config>>, x: Q.Input<Obj, Config>)
    requires Handed(k, a, b, inputs)
    requires b.entries <= b'.entries && DistinctTokens(b'.entries)
    requires forall i | 0 <= i < |b.entries| :: Call(k, b.entries[i].token, x) == []
    ensures Handed(k, a, b', inputs + [x])
  {
    hide Received, Call;
    forall i | 0 <= i < |a.entries|
      ensures b'.entries[i] == WithCalls(a.entries[i], Received(k, a.entries[i].token, inputs + [x]))
    {
      var token := a.entries[i].token;
      assert b.entries[i].token == token;
      ReceivedGrows(k, token, inputs, x);
      assert Received(k, token, inputs) + [] == Received(k, token, inputs);
    }
  }

  /** An input whose token is that of object j hands its call to that object alone. */
  lemma OneHanded(
    k: Classification, a: Objects<Obj>, b: Objects<Obj>, j: nat, event: Event,
    inputs: seq<Q.Input<Obj, Config>>, x: Q.Input<Obj, Config>)
    requires Handed(k, a, b, inputs) && j < |b.entries|
    requires forall i | 0 <= i < |b.entries| :: Call(k, b.entries[i].token, x) == if i == j then [event] else []
    ensures Handed(k, a, Remember(b, j, event), inputs + [x])
  {
    hide Received, Call;
    var b' := Remember(b, j, event);
    forall i | 0 <= i < |a.entries|
      ensures b'.entries[i] == WithCalls(a.entries[i], Received(k, a.entries[i].token, inputs + [x]))
    {
      var token, past := a.entries[i].token, a.entries[i].obj.past;
      assert b.entries[i].token == token;
      ReceivedGrows(k, token, inputs, x);
      assert past + Received(k, token, inputs) + [event] == past + (Received(k, token, inputs) + [event]);
      assert Received(k, token, inputs) + [] == Received(k, token, inputs);
    }
  }

  lemma RequestHanded(
    k: Classification, a: Objects<Obj>, b: Objects<Obj>, inputs: seq<Q.Input<Obj, Config>>, t: Ticket, r: Result)
    requires Handed(k, a, b, inputs)
    ensures Handed(k, a, Enforce(MACHINE, k.objects, b, t, r).0, inputs + [Q.Request(t)])
  {
    hide Handed, Received, TicketToken, Remember, Enforce;
    var token := TicketToken(k.objects, t);
    var j := Find(b.entries, token);
    HandedDistinct(k, a, b, inputs);
    EnforceRemembers(k.objects, b, t, r);
    if j < |b.entries| {
      OneHanded(k, a, b, j, Handled(t), inputs, Q.Request(t));
    } else {
      NothingHanded(k, a, b, b.(unmatched := b.unmatched + 1), inputs, Q.Request(t));
    }
  }

  lemma HandedDistinct(k: Classification, a: Objects<Obj>, b: Objects<Obj>, inputs: seq<Q.Input<Obj, Config>>)
    requires Handed(k, a, b, inputs)
    ensures DistinctTokens(b.entries)
  {}

  lemma ControlHanded(
    k: Classification, a: Objects<Obj>, b: Objects<Obj>, inputs: seq<Q.Input<Obj, Config>>, x: Q.Control<Obj, Config>)
    requires Handed(k, a, b, inputs)
    ensures Handed(k, a, Q.Obey(MACHINE, b, x), inputs + [Q.Ordered(x)])
  {
    hide Handed, Received, Remember, Configure;
    var j := Find(b.entries, x.token);
    HandedDistinct(k, a, b, inputs);
    if x.Configuring? {
      ConfigureRemembers(b, x.token, x.c);
      if j < |b.entries| {
        OneHanded(k, a, b, j, Applied(x.c), inputs, Q.Ordered(x));
      } else {
        NothingHanded(k, a, b, b, inputs, Q.Ordered(x));
      }
    } else {
      NothingHanded(k, a, b, Q.Obey(MACHINE, b, x), inputs, Q.Ordered(x));
    }
  }

  /** The fast path hands every call to its own object, in order. */
  lemma {:induction false} FastPathHands(k: Classification, a: Objects<Obj>, inputs: seq<Q.Input<Obj, Config>>)
    requires DistinctTokens(a.entries)
    ensures Handed(k, a, Q.FastPath(Machine(k), a, inputs).0, inputs)
    decreases |inputs|
  {
    hide Enforce, Q.Obey;
    if |inputs| == 0 {
      assert forall i | 0 <= i < |a.entries| :: a.entries[i].obj.past + [] == a.entries[i].obj.past;
    } else {
      var init, x := inputs[..|inputs| - 1], inputs[|inputs| - 1];
      FastPathHands(k, a, init);
      hide Handed, Received;
      assert init + [x] == inputs;
      var b := Q.FastPath(Machine(k), a, init).0;
      match x {
        case Request(t) => RequestHanded(k, a, b, init, t, FreshResult(t.id));
        case Ordered(c) => ControlHanded(k, a, b, init, c);
      }
    }
  }

  // ---------- objects created on the way ----------

  predicate Creates(x: Q.Input<Obj, Config>, token: Token) {
    x.Ordered? && x.x.Creating? && x.x.token == token
  }

  /** The n-th input is the first that creates an object with the entry's token, and the entry is that object
      with the calls that later inputs hold for it. */
  ghost predicate CreatedAt(k: Classification, e: Entry<Obj>, inputs: seq<Q.Input<Obj, Config>>, n: nat) {
    && n < |inputs| && Creates(inputs[n], e.token)
    && (forall m | 0 <= m < n :: !Creates(inputs[m], e.token))
    && e == WithCalls(Entry(e.token, inputs[n].x.o), Received(k, e.token, inputs[n + 1..]))
  }

  ghost predicate HasToken(entries: seq<Entry<Obj>>, token: Token) {
    exists i | 0 <= i < |entries| :: entries[i].token == token
  }

  ghost predicate Created(k: Classification, e: Entry<Obj>, inputs: seq<Q.Input<Obj, Config>>) {
    exists n: nat :: CreatedAt(k, e, inputs, n)
  }

  /** Every input that creates leaves an object with its token. */
  ghost predicate AllCreated(entries: seq<Entry<Obj>>, inputs: seq<Q.Input<Obj, Config>>) {
    forall m, token | 0 <= m < |inputs| && Creates(inputs[m], token) :: HasToken(entries, token)
  }

  /** Every object behind those of the start is accounted for by the input that created it. */
  ghost predicate Newcomers(k: Classification, a: Objects<Obj>, b: Objects<Obj>, inputs: seq<Q.Input<Obj, Config>>) {
    && (forall i | |a.entries| <= i < |b.entries| :: Created(k, b.entries[i], inputs))
    && AllCreated(b.entries, inputs)
  }

  lemma CreatedAtGrows(
    k: Classification, e: Entry<Obj>, inputs: seq<Q.Input<Obj, Config>>, n: nat, x: Q.Input<Obj, Config>)
    requires CreatedAt(k, e, inputs, n)
    ensures CreatedAt(k, WithCalls(e, Call(k, e.token, x)), inputs + [x], n)
  {
    hide Received, Call;
    var all, o := inputs + [x], inputs[n].x.o;
    assert all[n + 1..] == inputs[n + 1..] + [x];
    ReceivedGrows(k, e.token, inputs[n + 1..], x);
    assert o.past + Received(k, e.token, inputs[n + 1..]) + Call(k, e.token, x)
        == o.past + (Received(k, e.token, inputs[n + 1..]) + Call(k, e.token, x));
  }

  lemma TokensStay(a: seq<Entry<Obj>>, b: seq<Entry<Obj>>, token: Token)
    requires HasToken(a, token) && |a| <= |b| && forall i | 0 <= i < |a| :: b[i].token == a[i].token
    ensures HasToken(b, token)
  {
    var i :| 0 <= i < |a| && a[i].token == token;
    assert b[i].token == token;
  }

  lemma AllCreatedGrows(
    a: seq<Entry<Obj>>, b: seq<Entry<Obj>>, inputs: seq<Q.Input<Obj, Config>>, x: Q.Input<Obj, Config>)
    requires AllCreated(a, inputs) && |a| <= |b| && forall i | 0 <= i < |a| :: b[i].token == a[i].token
    requires forall token | Creates(x, token) :: HasToken(b, token)
    ensures AllCreated(b, inputs + [x])
  {
    hide HasToken, Creates;
    forall m, token | 0 <= m < |inputs + [x]| && Creates((inputs + [x])[m], token)
      ensures HasToken(b, token)
    {
      if m < |inputs| {
        TokensStay(a, b, token);
      }
    }
  }

  /** The same objects, each with its own call, are the newcomers of one more input that creates none of
      them anew. */
  lemma NewcomersStay(
    k: Classification, a: Objects<Obj>, b: Objects<Obj>, b': Objects<Obj>,
    inputs: seq<Q.Input<Obj, Config>>, x: Q.Input<Obj, Config>)
    requires Newcomers(k, a, b, inputs) && |b'.entries| == |b.entries|
    requires forall i | 0 <= i < |b.entries| ::
      b'.entries[i] == WithCalls(b.entries[i], Call(k, b.entries[i].token, x))
    requires forall token | Creates(x, token) :: HasToken(b.entries, token)
    ensures Newcomers(k, a, b', inputs + [x])
  {
    hide Call, CreatedAt, Creates, HasToken, AllCreated;
    forall token | Creates(x, token)
      ensures HasToken(b'.entries, token)
    {
      TokensStay(b.entries, b'.entries, token);
    }
    AllCreatedGrows(b.entries, b'.entries, inputs, x);
    forall i | |a.entries| <= i < |b'.entries|
      ensures Created(k, b'.entries[i], inputs + [x])
    {
      var n: nat :| CreatedAt(k, b.entries[i], inputs, n);
      CreatedAtGrows(k, b.entries[i], inputs, n, x);
    }
  }

  lemma NewcomerJoins(
    k: Classification, a: Objects<Obj>, b: Objects<Obj>, inputs: seq<Q.Input<Obj, Config>>, token: Token, o: Obj)
    requires Newcomers(k, a, b, inputs) && !HasToken(b.entries, token)
    ensures Newcomers(k, a, b.(entries := b.entries + [Entry(token, o)]), inputs + [Q.Ordered(Q.Creating(token, o))])
  {
    var x: Q.Input<Obj, Config> := Q.Ordered(Q.Creating(token, o));
    var all, entries := inputs + [x], b.entries + [Entry(token, o)];
    assert entries[|b.entries|].token == token;
    AllCreatedGrows(b.entries, entries, inputs, x);
    forall m | 0 <= m < |inputs|
      ensures !Creates(inputs[m], token)
    {
      assert AllCreated(b.entries, inputs);
    }
    CreatedLast(k, inputs, token, o);
    hide CreatedAt, AllCreated;
    forall i | |a.entries| <= i < |entries|
      ensures Created(k, entries[i], all)
    {
      if i < |b.entries| {
        var n: nat :| CreatedAt(k, b.entries[i], inputs, n);
        CreatedAtGrows(k, b.entries[i], inputs, n, x);
        NoCalls(b.entries[i]);
      }
    }
  }

  lemma NoCalls(e: Entry<Obj>)
    ensures WithCalls(e, []) == e
  {
    assert e.obj.past + [] == e.obj.past;
  }

  lemma CreatedLast(k: Classification, inputs: seq<Q.Input<Obj, Config>>, token: Token, o: Obj)
    requires forall m | 0 <= m < |inputs| :: !Creates(inputs[m], token)
    ensures CreatedAt(k, Entry(token, o), inputs + [Q.Ordered(Q.Creating(token, o))], |inputs|)
  {
    assert (inputs + [Q.Ordered(Q.Creating(token, o))])[|inputs| + 1..] == [];
    NoCalls(Entry(token, o));
  }

  lemma RequestNewcomers(
    k: Classification, a: Objects<Obj>, b: Objects<Obj>, inputs: seq<Q.Input<Obj, Config>>, t: Ticket, r: Result)
    requires Newcomers(k, a, b, inputs) && DistinctTokens(b.entries)
    ensures Newcomers(k, a, Enforce(MACHINE, k.objects, b, t, r).0, inputs + [Q.Request(t)])
  {
    hide Newcomers, TicketToken, Enforce, Find;
    var b' := Enforce(MACHINE, k.objects, b, t, r).0;
    EnforceRemembers(k.objects, b, t, r);
    forall i | 0 <= i < |b.entries|
      ensures b'.entries[i] == WithCalls(b.entries[i], Call(k, b.entries[i].token, Q.Request(t)))
    {
      NoCalls(b.entries[i]);
    }
    NewcomersStay(k, a, b, b', inputs, Q.Request(t));
  }

  lemma ControlNewcomers(
    k: Classification, a: Objects<Obj>, b: Objects<Obj>, inputs: seq<Q.Input<Obj, Config>>, x: Q.Control<Obj, Config>)
    requires Newcomers(k, a, b, inputs) && DistinctTokens(b.entries)
    ensures Newcomers(k, a, Q.Obey(MACHINE, b, x), inputs + [Q.Ordered(x)])
  {
    hide Newcomers, Configure, Find;
    var b' := Q.Obey(MACHINE, b, x);
    if x.Creating? && Find(b.entries, x.token) == |b.entries| {
      NewcomerJoins(k, a, b, inputs, x.token, x.o);
    } else {
      if x.Configuring? {
        ConfigureRemembers(b, x.token, x.c);
      } else {
        assert b.entries[Find(b.entries, x.token)].token == x.token;
      }
      forall i | 0 <= i < |b.entries|
        ensures b'.entries[i] == WithCalls(b.entries[i], Call(k, b.entries[i].token, Q.Ordered(x)))
      {
        NoCalls(b.entries[i]);
      }
      NewcomersStay(k, a, b, b', inputs, Q.Ordered(x));
    }
  }

  lemma {:induction false} FastPathNewcomers(k: Classification, a: Objects<Obj>, inputs: seq<Q.Input<Obj, Config>>)
    requires DistinctTokens(a.entries)
    ensures Newcomers(k, a, Q.FastPath(Machine(k), a, inputs).0, inputs)
    decreases |inputs|
  {
    hide Enforce, Q.Obey;
    if |inputs| > 0 {
      var init, x := inputs[..|inputs| - 1], inputs[|inputs| - 1];
      FastPathNewcomers(k, a, init);
      FastPathHands(k, a, init);
      hide Newcomers, Handed;
      assert init + [x] == inputs;
      var b := Q.FastPath(Machine(k), a, init).0;
      HandedDistinct(k, a, b, init);
      match x {
        case Request(t) => RequestNewcomers(k, a, b, init, t, FreshResult(t.id));
        case Ordered(c) => ControlNewcomers(k, a, b, init, c);
      }
    }
  }

  // ---------- queueing mode ----------

  /** In queueing mode, for any clients, workers, control rules and interleaving: each object of a
      channel has received exactly the calls that were for its token, in the order of the log, from
      the start or, if it was created on the way, from then on; and the log serves the calls in
      submission order with their own tickets. */
  lemma QueueingHandsInOrder(k: Classification, ch: Channel, steps: seq<Q.Step<Obj, Config>>)
    requires Parallel(ch)
    requires var u, s0 := Machine(k), Q.Initial<Obj, Config>(ch.objects);
      Q.CanRun(u, s0, steps) && Q.Windowed(u, s0, steps)
    ensures var s := Q.After(Machine(k), Q.Initial(ch.objects), steps);
      && Handed(k, ch.objects, s.objects, Q.Inputs(s.log))
      && Newcomers(k, ch.objects, s.objects, Q.Inputs(s.log))
      && Q.ServedCalls(s.log) <= s.submitted
      && Q.OwnTickets(s)
  {
    hide Q.CanRun, Q.After, Q.Windowed, Q.FastPath, Q.Inputs, Q.ServedCalls, Q.OwnTickets, Handed, Newcomers, MACHINE;
    MachineWellBehaved();
    Q.LinearizesToFastPath(Machine(k), ch.objects, steps);
    FastPathHands(k, ch.objects, Q.Inputs(Q.After(Machine(k), Q.Initial(ch.objects), steps).log));
    FastPathNewcomers(k, ch.objects, Q.Inputs(Q.After(Machine(k), Q.Initial(ch.objects), steps).log));
  }

  // ---------- the same targets ----------

  /** The object that the stage's data path finds for a request is the one whose token its ticket has. */
  lemma TicketHasTargetToken(k: Classification, s: Stage, c: Requests.Context, id: nat, buffer: Bytes)
    requires ChannelToken(k, TupleOfContext(c)) in s.channels
    ensures var entries := s.channels[ChannelToken(k, TupleOfContext(c))].objects.entries;
      var j := Find(entries, TicketToken(k.objects, BuildTicket(c, id, buffer)));
      DataTarget(k, s, TupleOfContext(c)) ==
        if j < |entries| then Some(Target(ChannelToken(k, TupleOfContext(c)), j)) else None
  {}

  // ---------- answers ----------

  ghost predicate LogAnswers(s: Q.State<Obj, Config>) {
    && (forall a | a in s.log && a.Served? :: a.r == Answered(FreshResult(a.t.id), a.t))
  }

  lemma StepAnswers(k: Classification, s: Q.State<Obj, Config>, e: Q.Step<Obj, Config>)
    requires LogAnswers(s) && Q.Enabled(s, e)
    ensures LogAnswers(Q.Next(Machine(k), s, e))
  {
    hide Enforce, Answered, BuildTicket, Q.Obey, CopyOf;
    if e.EnforceStep? {
      var t := s.calls[s.inFlight.p].t;
      EnforceRemembers(k.objects, s.objects, t, FreshResult(t.id));
    }
  }

  lemma {:induction false} RunAnswers(k: Classification, objects: Objects<Obj>, steps: seq<Q.Step<Obj, Config>>)
    requires Q.CanRun(Machine(k), Q.Initial(objects), steps)
    ensures LogAnswers(Q.After(Machine(k), Q.Initial(objects), steps))
    decreases |steps|
  {
    hide Q.Next, Q.Enabled, Machine;
    if |steps| > 0 {
      RunAnswers(k, objects, steps[..|steps| - 1]);
      StepAnswers(k, Q.After(Machine(k), Q.Initial(objects), steps[..|steps| - 1]), steps[|steps| - 1]);
    }
  }

  /** Every call that returned from a queueing channel was answered with success, its ticket's number, and
      the content it was made with, if any. */
  lemma ReturnedAnswer(k: Classification, ch: Channel, steps: seq<Q.Step<Obj, Config>>, i: nat)
    requires var u, s0 := Machine(k), Q.Initial<Obj, Config>(ch.objects);
      Q.CanRun(u, s0, steps) && Q.Windowed(u, s0, steps)
    requires i < |steps| && steps[i].Build?
    requires var calls := Q.After(Machine(k), Q.Initial(ch.objects), steps).calls;
      steps[i].c in calls && calls[steps[i].c].Returned?
    ensures var call := Q.After(Machine(k), Q.Initial(ch.objects), steps).calls[steps[i].c];
      var buffer := steps[i].buffer;
      && call.r.status == Success
      && call.r.ticketId == call.t.id == call.serial % 0x1_0000_0000_0000_0000
      && (call.r.hasContent <==> |buffer| > 0)
      && (|buffer| > 0 ==> call.r.contentSize == |buffer| && call.r.content == buffer)
      && (|buffer| == 0 ==> call.r.contentSize == 0 && call.r.content == [])
  {
    hide Q.CanRun, Q.After, Q.Windowed;
    MachineWellBehaved();
    RunAnswers(k, ch.objects, steps);
    Q.ReturnedOwnResult(Machine(k), ch.objects, steps, steps[i].c);
    Q.TicketOfBuild(Machine(k), Q.Initial(ch.objects), steps, i);
    var call := Q.After(Machine(k), Q.Initial(ch.objects), steps).calls[steps[i].c];
    TicketKeeps(steps[i].context, call.serial % TWO_64, steps[i].buffer);
    hide BuildTicket;
  }

  /** And what its object was charged is what that request asks for. */
  lemma ServedPayload(k: Classification, ch: Channel, steps: seq<Q.Step<Obj, Config>>, i: nat)
    requires Q.CanRun(Machine(k), Q.Initial(ch.objects), steps) && i < |steps| && steps[i].Build?
    requires var c := steps[i].context;
      && (c.opSize > 0 || |steps[i].buffer| > 0)
      && 0 <= c.opSize * c.operations < 0x8000_0000_0000_0000
    ensures var calls := Q.After(Machine(k), Q.Initial(ch.objects), steps).calls;
      steps[i].c in calls && calls[steps[i].c].t.payload == steps[i].context.opSize * steps[i].context.operations
  {
    hide Q.CanRun, Q.After, BuildTicket;
    Q.TicketOfBuild(Machine(k), Q.Initial(ch.objects), steps, i);
    var call := Q.After(Machine(k), Q.Initial(ch.objects), steps).calls[steps[i].c];
    PayloadMeans(steps[i].context, call.serial % TWO_64, steps[i].buffer);
  }
}
