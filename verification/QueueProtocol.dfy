/** The queueing mode of a channel: client calls, worker threads and control rules interleave at
    their critical sections.  Main results: the interleaving is equivalent to the fast path called in
    submission order; every call gets its own result; no dangling ticket pointer is followed; and
    exactly when a call that holds the completion lock gets stuck. */
module QueueProtocol {
  import opened Common
  import opened Requests
  import opened Differentiation
  import opened EnforcementObjects

  /** One call of channel_enforce; also the address of the ticket on its stack. */
  type Call = nat

  /** Where a call is.  `serial` is the number of tickets built before its own. */
  datatype Phase =
    | Ticketed(t: Ticket, serial: nat)   // ticket built
    | Waiting(t: Ticket, serial: nat)    // pointer enqueued; not holding the completion lock
    | Holding(t: Ticket, serial: nat)    // in the completion queue's dequeue, holding its lock
    | Returned(t: Ticket, serial: nat, r: Result)

  /** What the worker that holds the submission lock is doing. */
  datatype InFlight = Nothing | Popped(p: Call) | Finished(p: Call, r: Result)

  /** What happened to the objects, in the order of the objects lock. */
  datatype Action<O, C> = Served(call: Call, t: Ticket, r: Result) | Controlled(x: Control<O, C>)

  /** What the control plane does to the objects of a channel. */
  datatype Control<O, C> = Configuring(token: Token, c: C) | Creating(token: Token, o: O)

  function Obey<O, C>(kind: Kind<O, C>, objects: Objects<O>, x: Control<O, C>): Objects<O> {
    match x
    case Configuring(token, c) => Configure(kind, objects, token, c).0
    case Creating(token, o) => Create(objects, token, o).0
  }

  datatype Delivery = Delivery(call: Call, r: Result)

  datatype State<O, C> = State(
    calls: map<Call, Phase>,
    issued: nat,
    submission: seq<Call>,           // ticket pointers
    inFlight: InFlight,              // the submission lock is held while not Nothing
    completion: seq<Result>,
    holder: Option<Call>,            // of the completion lock
    objects: Objects<O>,
    // histories
    submitted: seq<Call>,
    log: seq<Action<O, C>>,
    delivered: seq<Delivery>)

  function Initial<O, C>(objects: Objects<O>): State<O, C> {
    State(map[], 0, [], Nothing, [], None, objects, [], [], [])
  }

  datatype Step<O, C> =
    | Build(c: Call, context: Context, buffer: Bytes)
    | Submit(c: Call)
    | Pop
    | EnforceStep
    | Complete
    | Acquire(c: Call)       // takes the completion lock, at the start or after a wait
    | WaitEmpty(c: Call)     // releases it because the queue is empty
    | Take(c: Call)          // the front is its own: pops it and returns
    | Manage(x: Control<O, C>)

  predicate Enabled<O, C>(s: State<O, C>, e: Step<O, C>) {
    match e
    case Build(c, _, _) => c !in s.calls
    case Submit(c) => c in s.calls && s.calls[c].Ticketed? && s.inFlight.Nothing?
    case Pop => s.inFlight.Nothing? && |s.submission| > 0
    case EnforceStep => s.inFlight.Popped? && s.inFlight.p in s.calls
    case Complete => s.inFlight.Finished? && s.holder.None?
    case Acquire(c) => c in s.calls && s.calls[c].Waiting? && s.holder.None?
    case WaitEmpty(c) => c in s.calls && s.calls[c].Holding? && |s.completion| == 0
    case Take(c) =>
      && c in s.calls && s.calls[c].Holding? && |s.completion| > 0
      && s.completion[0].ticketId == s.calls[c].t.id
    case Manage(_) => true
  }

  /** The machine the channel runs: its objects and the bound token function. */
  datatype Setup<!O, !C> = Setup(kind: Kind<O, C>, select: Selector)

  function Next<O, C>(u: Setup<O, C>, s: State<O, C>, e: Step<O, C>): State<O, C>
    requires Enabled(s, e)
  {
    match e
    case Build(c, context, buffer) =>
      var t := BuildTicket(context, s.issued % TWO_64, buffer);
      s.(calls := s.calls[c := Ticketed(t, s.issued)], issued := s.issued + 1)
    case Submit(c) =>
      s.(calls := s.calls[c := Waiting(s.calls[c].t, s.calls[c].serial)],
         submission := s.submission + [c], submitted := s.submitted + [c])
    case Pop =>
      s.(submission := s.submission[1..], inFlight := Popped(s.submission[0]))
    case EnforceStep =>
      var p := s.inFlight.p;
      var t := s.calls[p].t;
      var (objects, r) := Enforce(u.kind, u.select, s.objects, t, FreshResult(t.id));
      s.(objects := objects, inFlight := Finished(p, r), log := s.log + [Served(p, t, r)])
    case Complete =>
      s.(completion := s.completion + [CopyOf(s.inFlight.r)], inFlight := Nothing)
    case Acquire(c) =>
      s.(calls := s.calls[c := Holding(s.calls[c].t, s.calls[c].serial)], holder := Some(c))
    case WaitEmpty(c) =>
      s.(calls := s.calls[c := Waiting(s.calls[c].t, s.calls[c].serial)], holder := None)
    case Take(c) =>
      var r := CopyOf(s.completion[0]);
      s.(calls := s.calls[c := Returned(s.calls[c].t, s.calls[c].serial, r)],
         completion := s.completion[1..], holder := None, delivered := s.delivered + [Delivery(c, r)])
    case Manage(x) =>
      s.(objects := Obey(u.kind, s.objects, x), log := s.log + [Controlled(x)])
  }

  predicate CanRun<O, C>(u: Setup<O, C>, s: State<O, C>, steps: seq<Step<O, C>>)
    decreases |steps|, 0
  {
    |steps| == 0 ||
    (CanRun(u, s, steps[..|steps| - 1]) && Enabled(After(u, s, steps[..|steps| - 1]), steps[|steps| - 1]))
  }

  function After<O, C>(u: Setup<O, C>, s: State<O, C>, steps: seq<Step<O, C>>): State<O, C>
    requires CanRun(u, s, steps)
    decreases |steps|, 1
  {
    if |steps| == 0 then s else Next(u, After(u, s, steps[..|steps| - 1]), steps[|steps| - 1])
  }

  // ---------- the reference: the fast path, one call after another ----------

  datatype Input<O, C> = Request(t: Ticket) | Ordered(x: Control<O, C>)

  /** Calling enqueue_fast_path, configuring or creating, one after another: the final objects and the
      results, in order. */
  function FastPath<O, C>(u: Setup<O, C>, objects: Objects<O>, inputs: seq<Input<O, C>>): (Objects<O>, seq<Result>)
    decreases |inputs|
  {
    if |inputs| == 0 then (objects, [])
    else
      var (o, rs) := FastPath(u, objects, inputs[..|inputs| - 1]);
      match inputs[|inputs| - 1]
      case Request(t) =>
        var (o', r) := Enforce(u.kind, u.select, o, t, FreshResult(t.id));
        (o', rs + [r])
      case Ordered(x) => (Obey(u.kind, o, x), rs)
  }

  /** What the log did, as inputs of the fast path; who was served; with what. */
  function Inputs<O, C>(log: seq<Action<O, C>>): seq<Input<O, C>> {
    seq(|log|, i requires 0 <= i < |log| =>
      match log[i] case Served(_, t, _) => Request(t) case Controlled(x) => Ordered(x))
  }

  function ServedCalls<O, C>(log: seq<Action<O, C>>): seq<Call>
    decreases |log|
  {
    if |log| == 0 then []
    else ServedCalls(log[..|log| - 1]) + if log[|log| - 1].Served? then [log[|log| - 1].call] else []
  }

  function Results<O, C>(log: seq<Action<O, C>>): seq<Result>
    decreases |log|
  {
    if |log| == 0 then []
    else Results(log[..|log| - 1]) + if log[|log| - 1].Served? then [log[|log| - 1].r] else []
  }

  lemma LogGrows<O, C>(u: Setup<O, C>, objects: Objects<O>, log: seq<Action<O, C>>, a: Action<O, C>)
    ensures ServedCalls(log + [a]) == ServedCalls(log) + if a.Served? then [a.call] else []
    ensures Results(log + [a]) == Results(log) + if a.Served? then [a.r] else []
    ensures FastPath(u, objects, Inputs(log + [a])) ==
      var (o, rs) := FastPath(u, objects, Inputs(log));
      match a
      case Served(_, t, _) =>
        (Enforce(u.kind, u.select, o, t, FreshResult(t.id)).0,
         rs + [Enforce(u.kind, u.select, o, t, FreshResult(t.id)).1])
      case Controlled(x) => (Obey(u.kind, o, x), rs)
  {
    assert (log + [a])[..|log|] == log;
    assert Inputs(log + [a])[..|log|] == Inputs(log);
  }

  // ---------- the invariant ----------

  /** Submissions on their way or still queued: in flight, and finished. */
  function Carried<O, C>(s: State<O, C>): nat { if s.inFlight.Nothing? then 0 else 1 }
  function Finishing<O, C>(s: State<O, C>): nat { if s.inFlight.Finished? then 1 else 0 }

  /** Submitted = delivered ++ completion queue ++ in flight (at most one) ++ submission queue. */
  ghost predicate Lined<O, C>(s: State<O, C>) {
    var n := |s.delivered| + |s.completion|;
    && |s.submitted| == n + Carried(s) + |s.submission|
    && s.submission == s.submitted[n + Carried(s)..]
    && (!s.inFlight.Nothing? ==> s.inFlight.p == s.submitted[n])
  }

  /** The objects and all results, wherever they are, are those of the fast path. */
  ghost predicate Sequential<O, C>(u: Setup<O, C>, objects0: Objects<O>, s: State<O, C>) {
    var n, rs := |s.delivered| + |s.completion|, Results(s.log);
    && Lined(s)
    && ServedCalls(s.log) == s.submitted[..n + Finishing(s)]
    && FastPath(u, objects0, Inputs(s.log)) == (s.objects, rs)
    && |rs| == n + Finishing(s)
    && (forall i | 0 <= i < |s.delivered| :: s.delivered[i].r == rs[i])
    && (forall i | 0 <= i < |s.completion| :: s.completion[i] == rs[|s.delivered| + i])
    && (s.inFlight.Finished? ==> s.inFlight.r == rs[n])
  }

  /** Every result is tidy and carries the ticket number of the call it was made for. */
  ghost predicate Tagged<O, C>(s: State<O, C>) {
    var rs := Results(s.log);
    && |rs| <= |s.submitted|
    && (forall i | 0 <= i < |rs| :: CopyOf(rs[i]) == rs[i])
    && (forall i | 0 <= i < |rs| :: s.submitted[i] in s.calls && rs[i].ticketId == s.calls[s.submitted[i]].t.id)
    && (forall a | a in s.log && a.Served? :: a.call in s.calls && a.t == s.calls[a.call].t)
  }

  /** Where each call is, against the histories. */
  ghost predicate Placed<O, C>(s: State<O, C>) {
    && |s.delivered| <= |s.submitted|
    && (forall i, j | 0 <= i < j < |s.submitted| :: s.submitted[i] != s.submitted[j])
    && (forall i | 0 <= i < |s.submitted| :: s.submitted[i] in s.calls && !s.calls[s.submitted[i]].Ticketed?)
    && (forall i | 0 <= i < |s.submitted| :: s.calls[s.submitted[i]].Returned? <==> i < |s.delivered|)
    && (forall i | 0 <= i < |s.delivered| ::
         s.delivered[i].call == s.submitted[i] && s.calls[s.submitted[i]].r == s.delivered[i].r)
    && (forall c | c in s.calls && !s.calls[c].Ticketed? :: c in s.submitted)
    && (s.holder.Some? ==> s.holder.value in s.calls && s.calls[s.holder.value].Holding?)
    && (forall c | c in s.calls && s.calls[c].Holding? :: s.holder == Some(c))
  }

  /** Ticket numbers wrap around at 2^64; serials do not. */
  ghost predicate Numbered<O, C>(s: State<O, C>) {
    && (forall c | c in s.calls :: s.calls[c].serial < s.issued && s.calls[c].t.id == s.calls[c].serial % TWO_64)
    && (forall c, d | c in s.calls && d in s.calls && c != d :: s.calls[c].serial != s.calls[d].serial)
  }

  /** No call is still inside while 2^64 others are issued after it. */
  ghost predicate Window<O, C>(s: State<O, C>) {
    forall c | c in s.calls && !s.calls[c].Returned? :: s.issued - s.calls[c].serial <= TWO_64
  }

  ghost predicate Inv<O, C>(u: Setup<O, C>, objects0: Objects<O>, s: State<O, C>) {
    Sequential(u, objects0, s) && Tagged(s) && Placed(s) && Numbered(s)
  }

  // ---------- every step keeps it ----------

  lemma StepNumbered<O, C>(u: Setup<O, C>, s: State<O, C>, e: Step<O, C>)
    requires Numbered(s) && Enabled(s, e)
    ensures Numbered(Next(u, s, e))
  {
    hide Enforce, Obey;
  }

  /** Calls that are both inside have different ticket numbers. */
  lemma NumbersApart<O, C>(s: State<O, C>, c: Call, d: Call)
    requires Numbered(s) && Window(s)
    requires c in s.calls && d in s.calls && !s.calls[c].Returned? && !s.calls[d].Returned?
    requires s.calls[c].t.id == s.calls[d].t.id
    ensures c == d
  {
    Congruent(s.calls[c].serial, s.calls[d].serial, s.issued);
  }

  lemma Congruent(x: nat, y: nat, top: nat)
    requires x < top && y < top && top - x <= TWO_64 && top - y <= TWO_64
    requires x % TWO_64 == y % TWO_64
    ensures x == y
  {}

  /** The holder whose number is at the front is the call that front result was made for. */
  lemma FrontIsOwn<O, C>(u: Setup<O, C>, objects0: Objects<O>, s: State<O, C>, c: Call)
    requires Inv(u, objects0, s) && Window(s) && |s.completion| > 0
    requires c in s.calls && s.calls[c].Holding?
    ensures s.completion[0].ticketId == s.calls[c].t.id <==> c == s.submitted[|s.delivered|]
  {
    hide FastPath, ServedCalls, Results, Inputs;
    var n := |s.delivered|;
    assert s.completion[0] == Results(s.log)[n + 0];
    if s.completion[0].ticketId == s.calls[c].t.id {
      NumbersApart(s, c, s.submitted[n]);
    }
  }

  lemma StepLined<O, C>(u: Setup<O, C>, s: State<O, C>, e: Step<O, C>)
    requires Lined(s) && Enabled(s, e)
    ensures Lined(Next(u, s, e))
  {
    hide Enforce, Obey, BuildTicket;
  }

  lemma EnforceSequential<O, C>(u: Setup<O, C>, objects0: Objects<O>, s: State<O, C>)
    requires Sequential(u, objects0, s) && Enabled(s, EnforceStep)
    ensures Sequential(u, objects0, Next(u, s, EnforceStep))
  {
    hide Enforce, FastPath, ServedCalls, Results, Inputs;
    var s' := Next(u, s, EnforceStep);
    LogGrows(u, objects0, s.log, s'.log[|s.log|]);
    assert s'.log == s.log + [s'.log[|s.log|]];
    var n := |s.delivered| + |s.completion|;
    assert s.submitted[..n + 1] == s.submitted[..n] + [s.submitted[n]];
  }

  lemma ControlSequential<O, C>(u: Setup<O, C>, objects0: Objects<O>, s: State<O, C>, x: Control<O, C>)
    requires Sequential(u, objects0, s)
    ensures Sequential(u, objects0, Next(u, s, Manage(x)))
  {
    hide Obey, FastPath, ServedCalls, Results, Inputs;
    StepLined(u, s, Manage(x));
    LogGrows(u, objects0, s.log, Controlled(x));
    assert ServedCalls(s.log) + [] == ServedCalls(s.log);
    assert Results(s.log) + [] == Results(s.log);
  }

  lemma TakeSequential<O, C>(u: Setup<O, C>, objects0: Objects<O>, s: State<O, C>, c: Call)
    requires Sequential(u, objects0, s) && Tagged(s) && Enabled(s, Take(c))
    ensures Sequential(u, objects0, Next(u, s, Take(c)))
  {
    hide FastPath, ServedCalls, Results, Inputs;
    StepLined(u, s, Take(c));
    assert s.completion[0] == Results(s.log)[|s.delivered| + 0];
  }

  lemma CompleteSequential<O, C>(u: Setup<O, C>, objects0: Objects<O>, s: State<O, C>)
    requires Sequential(u, objects0, s) && Tagged(s) && Enabled(s, Complete)
    ensures Sequential(u, objects0, Next(u, s, Complete))
  {
    hide FastPath, ServedCalls, Results, Inputs;
    StepLined(u, s, Complete);
  }

  lemma SubmitSequential<O, C>(u: Setup<O, C>, objects0: Objects<O>, s: State<O, C>, c: Call)
    requires Sequential(u, objects0, s) && Enabled(s, Submit(c))
    ensures Sequential(u, objects0, Next(u, s, Submit(c)))
  {
    hide FastPath, ServedCalls, Results, Inputs;
    StepLined(u, s, Submit(c));
    var n := |s.delivered| + |s.completion|;
    assert (s.submitted + [c])[..n] == s.submitted[..n];
  }

  lemma StepSequential<O, C>(u: Setup<O, C>, objects0: Objects<O>, s: State<O, C>, e: Step<O, C>)
    requires Sequential(u, objects0, s) && Tagged(s) && Enabled(s, e)
    ensures Sequential(u, objects0, Next(u, s, e))
  {
    hide FastPath, ServedCalls, Results, Inputs, BuildTicket;
    match e {
      case Submit(c) => SubmitSequential(u, objects0, s, c);
      case EnforceStep => EnforceSequential(u, objects0, s);
      case Complete => CompleteSequential(u, objects0, s);
      case Take(c) => TakeSequential(u, objects0, s, c);
      case Manage(x) => ControlSequential(u, objects0, s, x);
      case _ => StepLined(u, s, e);
    }
  }

  lemma ServedTagged<O, C>(s: State<O, C>, s': State<O, C>, p: Call, t: Ticket, r: Result)
    requires Tagged(s) && s'.calls == s.calls && s'.submitted == s.submitted
    requires s'.log == s.log + [Served(p, t, r)] && Results(s'.log) == Results(s.log) + [r]
    requires |Results(s.log)| < |s.submitted| && p == s.submitted[|Results(s.log)|]
    requires p in s.calls && t == s.calls[p].t && r.ticketId == t.id && CopyOf(r) == r
    ensures Tagged(s')
  {
    hide Results, CopyOf;
    assert forall a | a in s'.log :: a in s.log || a == Served(p, t, r);
  }

  lemma PoppedIsNext<O, C>(u: Setup<O, C>, objects0: Objects<O>, s: State<O, C>)
    requires Sequential(u, objects0, s) && s.inFlight.Popped?
    ensures |Results(s.log)| < |s.submitted| && s.inFlight.p == s.submitted[|Results(s.log)|]
  {
    hide FastPath, ServedCalls, Results, Inputs;
  }

  lemma EnforceTagged<O(!new), C(!new)>(u: Setup<O, C>, objects0: Objects<O>, s: State<O, C>)
    requires WellBehaved(u.kind)
    requires Sequential(u, objects0, s) && Tagged(s) && Placed(s) && Enabled(s, EnforceStep)
    ensures Tagged(Next(u, s, EnforceStep))
  {
    var p := s.inFlight.p;
    var t := s.calls[p].t;
    EnforceWellBehaved(u.kind, u.select, s.objects, t, t.id);
    PoppedIsNext(u, objects0, s);
    hide Enforce, FastPath, ServedCalls, Results, Inputs, CopyOf, WellBehaved, Tagged, Placed, Sequential;
    var r := Enforce(u.kind, u.select, s.objects, t, FreshResult(t.id)).1;
    LogGrows(u, objects0, s.log, Served(p, t, r));
    ServedTagged(s, Next(u, s, EnforceStep), p, t, r);
  }

  lemma ControlTagged<O, C>(u: Setup<O, C>, objects0: Objects<O>, s: State<O, C>, x: Control<O, C>)
    requires Tagged(s)
    ensures Tagged(Next(u, s, Manage(x)))
  {
    hide Obey, FastPath, ServedCalls, Results, Inputs, CopyOf;
    LogGrows(u, objects0, s.log, Controlled(x));
    assert forall a | a in s.log + [Controlled(x)] :: a in s.log || a == Controlled(x);
  }

  lemma StepTagged<O(!new), C(!new)>(u: Setup<O, C>, objects0: Objects<O>, s: State<O, C>, e: Step<O, C>)
    requires WellBehaved(u.kind)
    requires Sequential(u, objects0, s) && Tagged(s) && Placed(s) && Enabled(s, e)
    ensures Tagged(Next(u, s, e))
  {
    match e {
      case EnforceStep => EnforceTagged(u, objects0, s);
      case Manage(x) => ControlTagged(u, objects0, s, x);
      case _ => QuietTagged(u, s, e);
    }
  }

  lemma QuietTagged<O, C>(u: Setup<O, C>, s: State<O, C>, e: Step<O, C>)
    requires Tagged(s) && Enabled(s, e) && !e.EnforceStep? && !e.Manage?
    ensures Tagged(Next(u, s, e))
  {
    hide Results, CopyOf, BuildTicket;
  }

  lemma TakePlaced<O, C>(u: Setup<O, C>, s: State<O, C>, c: Call)
    requires Placed(s) && Enabled(s, Take(c))
    requires |s.delivered| < |s.submitted| && c == s.submitted[|s.delivered|]
    ensures Placed(Next(u, s, Take(c)))
  {
    hide CopyOf;
  }

  lemma StepPlaced<O, C>(u: Setup<O, C>, objects0: Objects<O>, s: State<O, C>, e: Step<O, C>)
    requires Inv(u, objects0, s) && Window(s) && Enabled(s, e)
    ensures Placed(Next(u, s, e))
  {
    hide Sequential, Tagged, Numbered, Enforce, Obey, CopyOf, BuildTicket;
    match e {
      case Take(c) =>
        FrontIsOwn(u, objects0, s, c);
        TakeInLine(u, objects0, s);
        TakePlaced(u, s, c);
      case Submit(c) => SubmitPlaced(u, s, c);
      case Build(c, context, buffer) => BuildPlaced(u, s, c, context, buffer);
      case _ =>
    }
  }

  lemma TakeInLine<O, C>(u: Setup<O, C>, objects0: Objects<O>, s: State<O, C>)
    requires Inv(u, objects0, s) && |s.completion| > 0
    ensures |s.delivered| < |s.submitted|
  {}

  lemma SubmitPlaced<O, C>(u: Setup<O, C>, s: State<O, C>, c: Call)
    requires Placed(s) && Enabled(s, Submit(c))
    ensures Placed(Next(u, s, Submit(c)))
  {}

  lemma BuildPlaced<O, C>(u: Setup<O, C>, s: State<O, C>, c: Call, context: Context, buffer: Bytes)
    requires Placed(s) && Enabled(s, Build(c, context, buffer))
    ensures Placed(Next(u, s, Build(c, context, buffer)))
  {
    hide BuildTicket;
  }

  lemma StepInv<O(!new), C(!new)>(u: Setup<O, C>, objects0: Objects<O>, s: State<O, C>, e: Step<O, C>)
    requires WellBehaved(u.kind)
    requires Inv(u, objects0, s) && Window(s) && Enabled(s, e)
    ensures Inv(u, objects0, Next(u, s, e))
  {
    StepSequential(u, objects0, s, e);
    StepTagged(u, objects0, s, e);
    StepPlaced(u, objects0, s, e);
    StepNumbered(u, s, e);
  }

  // ---------- runs ----------

  /** The window condition holds in every state of the run. */
  ghost predicate Windowed<O, C>(u: Setup<O, C>, s: State<O, C>, steps: seq<Step<O, C>>)
    requires CanRun(u, s, steps)
    decreases |steps|
  {
    Window(After(u, s, steps)) && (|steps| > 0 ==> Windowed(u, s, steps[..|steps| - 1]))
  }

  lemma InitialInv<O, C>(u: Setup<O, C>, objects0: Objects<O>)
    ensures Inv(u, objects0, Initial(objects0))
  {}

  lemma {:induction false} RunInv<O(!new), C(!new)>(u: Setup<O, C>, objects0: Objects<O>, steps: seq<Step<O, C>>)
    requires WellBehaved(u.kind)
    requires CanRun(u, Initial(objects0), steps) && Windowed(u, Initial(objects0), steps)
    ensures Inv(u, objects0, After(u, Initial(objects0), steps))
    decreases |steps|
  {
    hide Inv, Enabled, Next, Window, WellBehaved;
    if |steps| == 0 {
      InitialInv(u, objects0);
    } else {
      RunInv(u, objects0, steps[..|steps| - 1]);
      StepInv(u, objects0, After(u, Initial(objects0), steps[..|steps| - 1]), steps[|steps| - 1]);
    }
  }

  // ---------- main results ----------

  /** Queueing mode linearizes to the fast path.  For any calls, workers, control rules and
      interleaving: replaying the log on the fast path gives the same objects and, in submission
      order, the same results; what was delivered is the front of those results, and every replayed
      ticket is the one its call built. */
  lemma LinearizesToFastPath<O(!new), C(!new)>(u: Setup<O, C>, objects0: Objects<O>, steps: seq<Step<O, C>>)
    requires WellBehaved(u.kind)
    requires CanRun(u, Initial(objects0), steps) && Windowed(u, Initial(objects0), steps)
    ensures var s := After(u, Initial(objects0), steps);
      var (objects, results) := FastPath(u, objects0, Inputs(s.log));
      && s.objects == objects
      && ServedCalls(s.log) <= s.submitted
      && |s.delivered| <= |results| == |ServedCalls(s.log)|
      && (forall i | 0 <= i < |s.delivered| :: s.delivered[i] == Delivery(s.submitted[i], results[i]))
      && OwnTickets(s)
  {
    RunInv(u, objects0, steps);
    var s := After(u, Initial(objects0), steps);
    LoggedTickets(s);
    hide FastPath, ServedCalls, Results, Inputs, Tagged, Numbered, OwnTickets;
  }

  /** The tickets that the log replays are those of the calls it served. */
  ghost predicate OwnTickets<O, C>(s: State<O, C>) {
    forall a | a in s.log && a.Served? :: a.call in s.calls && a.t == s.calls[a.call].t
  }

  lemma LoggedTickets<O, C>(s: State<O, C>)
    requires Tagged(s)
    ensures OwnTickets(s)
  {
    hide Results, CopyOf;
  }

  /** Submitted = delivered ++ answered in the completion queue ++ in flight ++ submission queue. */
  ghost predicate InLine<O, C>(s: State<O, C>) {
    var carried := if s.inFlight.Nothing? then [] else [s.inFlight.p];
    var d, q := |s.delivered|, |s.completion|;
    && d + q <= |s.submitted|
    && s.submitted == s.submitted[..d + q] + carried + s.submission
    && (forall i | 0 <= i < d :: s.delivered[i].call == s.submitted[i])
    && (forall i | d <= i < d + q :: s.submitted[i] in s.calls
          && s.completion[i - d].ticketId == s.calls[s.submitted[i]].t.id)
  }

  lemma AnsweredInOrder<O, C>(u: Setup<O, C>, objects0: Objects<O>, s: State<O, C>, i: nat)
    requires Sequential(u, objects0, s) && Tagged(s)
    requires |s.delivered| <= i < |s.delivered| + |s.completion|
    ensures i < |s.submitted| && s.submitted[i] in s.calls
    ensures s.completion[i - |s.delivered|].ticketId == s.calls[s.submitted[i]].t.id
  {
    hide FastPath, ServedCalls, Results, Inputs, CopyOf;
    var k := i - |s.delivered|;
    assert s.completion[k] == Results(s.log)[|s.delivered| + k];
  }

  lemma LinedInOrder<O, C>(s: State<O, C>)
    requires Lined(s)
    ensures var carried := if s.inFlight.Nothing? then [] else [s.inFlight.p];
      var n := |s.delivered| + |s.completion|;
      n <= |s.submitted| && s.submitted == s.submitted[..n] + carried + s.submission
  {}

  lemma InvParts<O, C>(u: Setup<O, C>, objects0: Objects<O>, s: State<O, C>)
    requires Inv(u, objects0, s)
    ensures Sequential(u, objects0, s) && Lined(s) && Tagged(s) && Placed(s)
  {
    hide FastPath, ServedCalls, Results, Inputs, Numbered, Tagged, Placed;
  }

  lemma DeliveredInOrder<O, C>(s: State<O, C>)
    requires Placed(s)
    ensures |s.delivered| <= |s.submitted|
    ensures forall i | 0 <= i < |s.delivered| :: s.delivered[i].call == s.submitted[i]
  {}

  lemma LineInOrder<O, C>(u: Setup<O, C>, objects0: Objects<O>, s: State<O, C>)
    requires Inv(u, objects0, s)
    ensures InLine(s)
  {
    hide Inv, Lined, Placed, Tagged, Sequential;
    InvParts(u, objects0, s);
    LinedInOrder(s);
    DeliveredInOrder(s);
    forall i | |s.delivered| <= i < |s.delivered| + |s.completion|
      ensures s.submitted[i] in s.calls
      ensures s.completion[i - |s.delivered|].ticketId == s.calls[s.submitted[i]].t.id
    {
      AnsweredInOrder(u, objects0, s, i);
    }
  }

  /** No submission is lost, duplicated or reordered on its way. */
  lemma SubmissionsConserved<O(!new), C(!new)>(u: Setup<O, C>, objects0: Objects<O>, steps: seq<Step<O, C>>)
    requires WellBehaved(u.kind)
    requires CanRun(u, Initial(objects0), steps) && Windowed(u, Initial(objects0), steps)
    ensures InLine(After(u, Initial(objects0), steps))
  {
    RunInv(u, objects0, steps);
    LineInOrder(u, objects0, After(u, Initial(objects0), steps));
  }

  /** Every call that has returned holds the result made from its own ticket, delivered to no other
      call. */
  lemma ReturnedOwnResult<O(!new), C(!new)>(u: Setup<O, C>, objects0: Objects<O>, steps: seq<Step<O, C>>, c: Call)
    requires WellBehaved(u.kind)
    requires CanRun(u, Initial(objects0), steps) && Windowed(u, Initial(objects0), steps)
    requires var s := After(u, Initial(objects0), steps); c in s.calls && s.calls[c].Returned?
    ensures var s := After(u, Initial(objects0), steps);
      exists i: nat | i < |s.delivered| ::
        && s.delivered[i] == Delivery(c, s.calls[c].r)
        && Served(c, s.calls[c].t, s.calls[c].r) in s.log
        && forall j | 0 <= j < |s.delivered| && j != i :: s.delivered[j].call != c
  {
    RunInv(u, objects0, steps);
    var s := After(u, Initial(objects0), steps);
    hide FastPath, Inputs, Numbered, After, CanRun, Windowed, WellBehaved;
    var i :| 0 <= i < |s.submitted| && s.submitted[i] == c;
    assert s.delivered[i] == Delivery(c, s.calls[c].r);
    ServedAt(s.log, i);
  }

  /** The i-th served call and result come from one log entry. */
  lemma {:induction false} ServedAt<O, C>(log: seq<Action<O, C>>, i: nat)
    requires i < |ServedCalls(log)|
    ensures |Results(log)| == |ServedCalls(log)|
    ensures exists a | a in log :: a.Served? && a.call == ServedCalls(log)[i] && a.r == Results(log)[i]
    decreases |log|
  {
    var n := |log| - 1;
    SameCount(log[..n]);
    if i < |ServedCalls(log[..n])| {
      ServedAt(log[..n], i);
      var a :| a in log[..n] && a.Served? && a.call == ServedCalls(log)[i] && a.r == Results(log)[i];
      assert a in log;
    } else {
      assert log[n] in log;
    }
  }

  lemma {:induction false} SameCount<O, C>(log: seq<Action<O, C>>)
    ensures |Results(log)| == |ServedCalls(log)|
    decreases |log|
  {
    if |log| > 0 {
      SameCount(log[..|log| - 1]);
    }
  }

  lemma StepKeepsTickets<O, C>(u: Setup<O, C>, s: State<O, C>, e: Step<O, C>, c: Call)
    requires c in s.calls && Enabled(s, e)
    ensures var s' := Next(u, s, e);
      c in s'.calls && s'.calls[c].t == s.calls[c].t && s'.calls[c].serial == s.calls[c].serial
  {
    hide Enforce, Obey, BuildTicket, CopyOf;
  }

  /** The ticket of a call is the one that its build step made, of that step's request and content. */
  lemma {:induction false} TicketOfBuild<O, C>(u: Setup<O, C>, s0: State<O, C>, steps: seq<Step<O, C>>, i: nat)
    requires CanRun(u, s0, steps) && i < |steps| && steps[i].Build?
    ensures var call, s := steps[i].c, After(u, s0, steps);
      && call in s.calls
      && s.calls[call].t == BuildTicket(steps[i].context, s.calls[call].serial % TWO_64, steps[i].buffer)
    decreases |steps|
  {
    hide BuildTicket;
    var n := |steps| - 1;
    if i < n {
      TicketOfBuild(u, s0, steps[..n], i);
      StepKeepsTickets(u, After(u, s0, steps[..n]), steps[n], steps[i].c);
      hide Next, Enabled;
    }
  }

  /** Every ticket pointer that is queued or being enforced is the pointer of a call that is still
      inside channel_enforce, so following it is safe. */
  lemma NoDanglingPointer<O(!new), C(!new)>(u: Setup<O, C>, objects0: Objects<O>, steps: seq<Step<O, C>>, p: Call)
    requires WellBehaved(u.kind)
    requires CanRun(u, Initial(objects0), steps) && Windowed(u, Initial(objects0), steps)
    requires var s := After(u, Initial(objects0), steps); p in s.submission || s.inFlight == Popped(p)
    ensures var s := After(u, Initial(objects0), steps);
      p in s.calls && (s.calls[p].Waiting? || s.calls[p].Holding?)
  {
    hide Inv, CanRun, After, Windowed;
    RunInv(u, objects0, steps);
    PointersInside(u, objects0, After(u, Initial(objects0), steps), p);
  }

  lemma PointersInside<O, C>(u: Setup<O, C>, objects0: Objects<O>, s: State<O, C>, p: Call)
    requires Inv(u, objects0, s) && (p in s.submission || s.inFlight == Popped(p))
    ensures p in s.calls && (s.calls[p].Waiting? || s.calls[p].Holding?)
  {
    InvParts(u, objects0, s);
    hide Inv, Sequential, Tagged;
    if p in s.submission {
      var k :| 0 <= k < |s.submission| && s.submission[k] == p;
      assert s.submitted[|s.delivered| + |s.completion| + Carried(s) + k] == p;
    }
  }

  /** Real-time order: a call that returned before another began is ahead of it in the order the
      results follow. */
  lemma RealTimeOrder<O(!new), C(!new)>(
    u: Setup<O, C>, objects0: Objects<O>, steps: seq<Step<O, C>>, more: seq<Step<O, C>>, c: Call, d: Call, j: nat)
    requires WellBehaved(u.kind)
    requires CanRun(u, Initial(objects0), steps + more) && Windowed(u, Initial(objects0), steps + more)
    requires CanRun(u, Initial(objects0), steps) && Windowed(u, Initial(objects0), steps)
    requires var s := After(u, Initial(objects0), steps);
      c in s.calls && s.calls[c].Returned? && d !in s.calls
    requires var s' := After(u, Initial(objects0), steps + more); j < |s'.submitted| && s'.submitted[j] == d
    ensures var s' := After(u, Initial(objects0), steps + more);
      exists i: nat | i < j :: s'.submitted[i] == c
  {
    RunInv(u, objects0, steps);
    var s := After(u, Initial(objects0), steps);
    SubmittedGrows(u, Initial(objects0), steps, more);
    hide FastPath, ServedCalls, Results, Inputs, Numbered, Tagged, Sequential;
    var i :| 0 <= i < |s.submitted| && s.submitted[i] == c;
  }

  lemma {:induction false} SubmittedGrows<O, C>(
    u: Setup<O, C>, s0: State<O, C>, steps: seq<Step<O, C>>, more: seq<Step<O, C>>)
    requires CanRun(u, s0, steps + more)
    ensures CanRun(u, s0, steps)
    ensures After(u, s0, steps).submitted <= After(u, s0, steps + more).submitted
    decreases |more|
  {
    hide Enforce, Obey, BuildTicket;
    if |more| == 0 {
      assert steps + more == steps;
    } else {
      assert (steps + more)[..|steps + more| - 1] == steps + more[..|more| - 1];
      SubmittedGrows(u, s0, steps, more[..|more| - 1]);
    }
  }

  // ---------- getting stuck ----------

  /** The call that holds the completion lock sees another call's result at the front. */
  predicate Stuck<O, C>(s: State<O, C>) {
    && s.holder.Some? && s.holder.value in s.calls && s.calls[s.holder.value].Holding?
    && |s.completion| > 0
    && s.completion[0].ticketId != s.calls[s.holder.value].t.id
  }

  /** It re-checks the front without ever letting go of the lock: from there no step changes the
      completion queue or delivers anything, whatever every other thread does. */
  lemma {:induction false} StuckForever<O, C>(u: Setup<O, C>, s: State<O, C>, steps: seq<Step<O, C>>)
    requires Stuck(s) && OneHolder(s) && CanRun(u, s, steps)
    ensures var s' := After(u, s, steps);
      && Stuck(s') && OneHolder(s')
      && s'.delivered == s.delivered && s'.completion == s.completion && s'.holder == s.holder
    decreases |steps|
  {
    hide Stuck, OneHolder, Next, Enabled;
    if |steps| > 0 {
      StuckForever(u, s, steps[..|steps| - 1]);
      StepStuck(u, After(u, s, steps[..|steps| - 1]), steps[|steps| - 1]);
    }
  }

  lemma StepStuck<O, C>(u: Setup<O, C>, s: State<O, C>, e: Step<O, C>)
    requires Stuck(s) && OneHolder(s) && Enabled(s, e)
    ensures var s' := Next(u, s, e);
      && Stuck(s') && OneHolder(s')
      && s'.delivered == s.delivered && s'.completion == s.completion && s'.holder == s.holder
  {
    hide Enforce, Obey, BuildTicket;
  }

  ghost predicate OneHolder<O, C>(s: State<O, C>) {
    forall c | c in s.calls && s.calls[c].Holding? :: s.holder == Some(c)
  }

  /** The holder's choices over a nonempty queue. */
  ghost predicate SettledByOrder<O, C>(s: State<O, C>, c: Call) {
    && OneHolder(s) && |s.delivered| < |s.submitted|
    && (Enabled<O, C>(s, Take(c)) <==> c == s.submitted[|s.delivered|])
    && (Stuck(s) <==> c != s.submitted[|s.delivered|])
  }

  lemma HolderSettled<O, C>(u: Setup<O, C>, objects0: Objects<O>, s: State<O, C>, c: Call)
    requires Inv(u, objects0, s) && Window(s) && s.holder == Some(c) && |s.completion| > 0
    ensures SettledByOrder(s, c)
  {
    hide Sequential, Numbered, Tagged, Window;
    TakeInLine(u, objects0, s);
    FrontIsOwn(u, objects0, s, c);
  }

  /** So a call that holds the lock over a nonempty queue gets through exactly when it is the next in
      submission order; otherwise it is stuck for ever. */
  lemma GetsThroughIffNext<O(!new), C(!new)>(u: Setup<O, C>, objects0: Objects<O>, steps: seq<Step<O, C>>, c: Call)
    requires WellBehaved(u.kind)
    requires CanRun(u, Initial(objects0), steps) && Windowed(u, Initial(objects0), steps)
    requires var s := After(u, Initial(objects0), steps);
      s.holder == Some(c) && |s.completion| > 0
    ensures SettledByOrder(After(u, Initial(objects0), steps), c)
  {
    hide SettledByOrder, Inv;
    RunInv(u, objects0, steps);
    HolderSettled(u, objects0, After(u, Initial(objects0), steps), c);
  }

  // ---------- one call at a time ----------

  ghost predicate OneInside<O, C>(s: State<O, C>) {
    forall c, d | c in s.calls && d in s.calls && !s.calls[c].Returned? && !s.calls[d].Returned? :: c == d
  }

  /** At most one call is inside in every state of the run. */
  ghost predicate OneAtATime<O, C>(u: Setup<O, C>, s: State<O, C>, steps: seq<Step<O, C>>)
    requires CanRun(u, s, steps)
    decreases |steps|
  {
    OneInside(After(u, s, steps)) && (|steps| > 0 ==> OneAtATime(u, s, steps[..|steps| - 1]))
  }

  /** The call that is inside is the last one that took a number. */
  ghost predicate InsideIsLast<O, C>(s: State<O, C>) {
    forall c | c in s.calls && !s.calls[c].Returned? :: s.calls[c].serial + 1 == s.issued
  }

  lemma StepInsideIsLast<O, C>(u: Setup<O, C>, s: State<O, C>, e: Step<O, C>)
    requires InsideIsLast(s) && Enabled(s, e) && OneInside(Next(u, s, e))
    ensures InsideIsLast(Next(u, s, e))
  {
    hide Enforce, Obey, BuildTicket, CopyOf;
    if e.Build? {
      var s' := Next(u, s, e);
      assert e.c in s'.calls && !s'.calls[e.c].Returned?;
    }
  }

  lemma {:induction false} OneAtATimeWindowed<O, C>(u: Setup<O, C>, objects0: Objects<O>, steps: seq<Step<O, C>>)
    requires CanRun(u, Initial(objects0), steps) && OneAtATime(u, Initial(objects0), steps)
    ensures InsideIsLast(After(u, Initial(objects0), steps)) && Windowed(u, Initial(objects0), steps)
    decreases |steps|
  {
    hide Next, Enabled, OneInside, InsideIsLast, Window;
    if |steps| == 0 {
      NobodyInside<O, C>(objects0);
    } else {
      var before := steps[..|steps| - 1];
      OneAtATimeWindowed(u, objects0, before);
      StepInsideIsLast(u, After(u, Initial(objects0), before), steps[|steps| - 1]);
    }
    LastInWindow(After(u, Initial(objects0), steps));
  }

  lemma NobodyInside<O, C>(objects0: Objects<O>)
    ensures InsideIsLast<O, C>(Initial(objects0))
  {}

  lemma LastInWindow<O, C>(s: State<O, C>)
    requires InsideIsLast(s)
    ensures Window(s)
  {}

  /** A client that lets only one call in at a time is never stuck, over any run, however long. */
  lemma OneAtATimeNeverStuck<O(!new), C(!new)>(u: Setup<O, C>, objects0: Objects<O>, steps: seq<Step<O, C>>)
    requires WellBehaved(u.kind)
    requires CanRun(u, Initial(objects0), steps) && OneAtATime(u, Initial(objects0), steps)
    ensures !Stuck(After(u, Initial(objects0), steps))
  {
    hide Inv, CanRun, After, Stuck;
    OneAtATimeWindowed(u, objects0, steps);
    RunInv(u, objects0, steps);
    OneInsideNotStuck(u, objects0, After(u, Initial(objects0), steps));
  }

  lemma OneInsideNotStuck<O, C>(u: Setup<O, C>, objects0: Objects<O>, s: State<O, C>)
    requires Inv(u, objects0, s) && Window(s) && OneInside(s)
    ensures !Stuck(s)
  {
    hide Sequential, Tagged, Numbered, Window;
    if Stuck(s) {
      HolderSettled(u, objects0, s, s.holder.value);
      NextIsInside(u, objects0, s);
    }
  }

  /** The call whose result is at the front has not returned. */
  lemma NextIsInside<O, C>(u: Setup<O, C>, objects0: Objects<O>, s: State<O, C>)
    requires Inv(u, objects0, s) && |s.completion| > 0
    ensures |s.delivered| < |s.submitted|
    ensures var d := s.submitted[|s.delivered|]; d in s.calls && !s.calls[d].Returned?
  {
    hide FastPath, ServedCalls, Results, Inputs, Numbered, Tagged;
    TakeInLine(u, objects0, s);
  }

  /** Two calls and one worker are enough to get stuck. */
  lemma TwoCallsCanGetStuck<O(!new), C(!new)>(u: Setup<O, C>, objects0: Objects<O>, context: Context)
    returns (steps: seq<Step<O, C>>)
    requires WellBehaved(u.kind)
    ensures CanRun(u, Initial(objects0), steps)
    ensures Stuck(After(u, Initial(objects0), steps))
  {
    hide Enforce, CopyOf, WellBehaved, Obey;
    var s0: State<O, C> := Initial(objects0);
    var s1 := Next(u, s0, Build(0, context, []));
    var s2 := Next(u, s1, Build(1, context, []));
    var s3 := Next(u, s2, Submit(0));
    var s4 := Next(u, s3, Submit(1));
    var s5 := Next(u, s4, Pop);
    var s6 := Next(u, s5, EnforceStep);
    EnforceWellBehaved(u.kind, u.select, s5.objects, s5.calls[0].t, 0);
    var s7 := Next(u, s6, Complete);
    var s8 := Next(u, s7, Acquire(1));
    steps := [];
    steps := Extend(u, s0, steps, Build(0, context, []));
    steps := Extend(u, s0, steps, Build(1, context, []));
    steps := Extend(u, s0, steps, Submit(0));
    steps := Extend(u, s0, steps, Submit(1));
    steps := Extend(u, s0, steps, Pop);
    steps := Extend(u, s0, steps, EnforceStep);
    steps := Extend(u, s0, steps, Complete);
    steps := Extend(u, s0, steps, Acquire(1));
  }

  lemma Extend<O, C>(u: Setup<O, C>, s: State<O, C>, steps: seq<Step<O, C>>, e: Step<O, C>)
    returns (more: seq<Step<O, C>>)
    requires CanRun(u, s, steps) && Enabled(After(u, s, steps), e)
    ensures more == steps + [e] && CanRun(u, s, more) && After(u, s, more) == Next(u, After(u, s, steps), e)
  {
    more := steps + [e];
    assert more[..|steps|] == steps;
  }
}
