/** The two queues of a channel as the classes that own them.  A blocking wait takes its wake-ups as a
    parameter: what the thread finds each time it gets its lock back.  A list that runs out means
    the thread is still asleep. */
module SubmissionQueues {
  import opened Common
  import opened Requests
  import opened Differentiation
  import opened EnforcementObjects
  import opened QueueProtocol

  /** What a client that asks for its result is left with. */
  datatype Fetched = Got(r: Result) | Asleep | Spinning

  /** The first nonempty queue that a waiting client finds; empty if there is none. */
  function FirstNonEmpty(queue: seq<Result>, wakes: seq<seq<Result>>): (q: seq<Result>)
    ensures |queue| > 0 ==> q == queue
    ensures |q| == 0 <==> |queue| == 0 && forall i | 0 <= i < |wakes| :: |wakes[i]| == 0
    decreases |wakes|
  {
    if |queue| > 0 || |wakes| == 0 then queue else FirstNonEmpty(wakes[0], wakes[1..])
  }

  /** The k-th queue it finds is the one it goes on with when all before were empty. */
  lemma {:induction false} FirstNonEmptyMeans(queue: seq<Result>, wakes: seq<seq<Result>>, k: nat)
    requires |queue| == 0 && k < |wakes| && |wakes[k]| > 0
    requires forall i | 0 <= i < k :: |wakes[i]| == 0
    ensures FirstNonEmpty(queue, wakes) == wakes[k]
    decreases k
  {
    if k > 0 {
      FirstNonEmptyMeans(wakes[0], wakes[1..], k - 1);
    }
  }

  class CompletionQueue {
    var queue: seq<Result>

    constructor ()
      ensures queue == []
    {
      queue := [];
    }

    method Enqueue(result: Result)
      modifies this
      ensures queue == old(queue) + [CopyOf(result)]
      ensures |queue| == |old(queue)| + 1 && queue[..|old(queue)|] == old(queue)
      ensures var added := queue[|old(queue)|];
        && added.ticketId == result.ticketId && added.status == result.status
        && added.hasContent == result.hasContent
        && (result.hasContent ==> added.contentSize == result.contentSize && added.content == result.content)
    {
      CopyMeans(result);
      queue := queue + [CopyOf(result)];
    }

    /** `wakes[i]` is the queue found after the i-th wait.  A foreign result at the front is checked
        again and again without giving up the lock: Spinning. */
    method Dequeue(ticketId: nat, wakes: seq<seq<Result>>) returns (fetched: Fetched)
      modifies this
      ensures var found := FirstNonEmpty(old(queue), wakes);
        && (fetched.Asleep? <==> |found| == 0)
        && (fetched.Spinning? <==> |found| > 0 && found[0].ticketId != ticketId)
        && (fetched.Got? ==> fetched.r == CopyOf(found[0]) && queue == found[1..])
        && (!fetched.Got? ==> queue == found)
        && (fetched.Got? ==> fetched.r.ticketId == ticketId && fetched.r.status == found[0].status)
        && (fetched.Got? && found[0].hasContent ==> fetched.r == found[0])
    {
      var waits := 0;
      while |queue| == 0 && waits < |wakes|
        invariant waits <= |wakes|
        invariant FirstNonEmpty(queue, wakes[waits..]) == FirstNonEmpty(old(queue), wakes)
        decreases |wakes| - waits
      {
        queue := wakes[waits];
        waits := waits + 1;
      }
      if |queue| == 0 {
        return Asleep;
      }
      if queue[0].ticketId != ticketId {
        return Spinning;
      }
      fetched := Got(CopyOf(queue[0]));
      queue := queue[1..];
    }
  }

  /** One return from the timed wait: how it ended, whether workers should go on, the tickets found. */
  datatype Wake = Wake(timedOut: bool, running: bool, tickets: seq<Ticket>)

  datatype Wait = Ready(tickets: seq<Ticket>) | Interrupted(tickets: seq<Ticket>) | StillWaiting

  /** A worker goes on once it finds a ticket; it gives up when its wait times out after a stop, even
      if a ticket has just arrived. */
  function AwaitTicket(queue: seq<Ticket>, wakes: seq<Wake>): (w: Wait)
    ensures |queue| > 0 ==> w == Ready(queue)
    ensures w.Ready? ==> |w.tickets| > 0
    ensures w.Interrupted? ==> exists i | 0 <= i < |wakes| :: wakes[i].timedOut && !wakes[i].running
    decreases |wakes|
  {
    if |queue| > 0 then Ready(queue)
    else if |wakes| == 0 then StillWaiting
    else if wakes[0].timedOut && !wakes[0].running then Interrupted(wakes[0].tickets)
    else AwaitTicket(wakes[0].tickets, wakes[1..])
  }

  /** How a wait on an empty queue ends: at the first wake-up that timed out after a stop or found a ticket.
      The stop counts first. */
  lemma {:induction false} AwaitTicketMeans(queue: seq<Ticket>, wakes: seq<Wake>, k: nat)
    requires |queue| == 0 && k < |wakes|
    requires forall i | 0 <= i < k :: |wakes[i].tickets| == 0 && (!wakes[i].timedOut || wakes[i].running)
    ensures wakes[k].timedOut && !wakes[k].running ==> AwaitTicket(queue, wakes) == Interrupted(wakes[k].tickets)
    ensures (!wakes[k].timedOut || wakes[k].running) && |wakes[k].tickets| > 0 ==>
      AwaitTicket(queue, wakes) == Ready(wakes[k].tickets)
    decreases k
  {
    if k > 0 {
      AwaitTicketMeans(wakes[0].tickets, wakes[1..], k - 1);
    }
  }

  /** It does not end otherwise. */
  lemma {:induction false} AwaitTicketGoesOn(queue: seq<Ticket>, wakes: seq<Wake>)
    requires |queue| == 0
    requires forall i | 0 <= i < |wakes| :: |wakes[i].tickets| == 0 && (!wakes[i].timedOut || wakes[i].running)
    ensures AwaitTicket(queue, wakes) == StillWaiting
    decreases |wakes|
  {
    if |wakes| > 0 {
      AwaitTicketGoesOn(wakes[0].tickets, wakes[1..]);
    }
  }

  /** The requests of a list of tickets, as inputs of the fast path. */
  function Requested<O, C>(tickets: seq<Ticket>): (inputs: seq<Input<O, C>>)
    ensures |inputs| == |tickets|
  {
    seq(|tickets|, i requires 0 <= i < |tickets| => Request(tickets[i]))
  }

  lemma RequestedGrows<O, C>(u: Setup<O, C>, objects: Objects<O>, tickets: seq<Ticket>, t: Ticket)
    ensures FastPath(u, objects, Requested(tickets + [t])) ==
      var (o, rs) := FastPath(u, objects, Requested(tickets));
      (Enforce(u.kind, u.select, o, t, FreshResult(t.id)).0,
       rs + [Enforce(u.kind, u.select, o, t, FreshResult(t.id)).1])
  {
    hide Enforce, Obey;
    assert Requested<O, C>(tickets + [t])[..|tickets|] == Requested(tickets);
  }

  lemma NothingRequested<O, C>(u: Setup<O, C>, objects: Objects<O>)
    ensures FastPath(u, objects, Requested([])) == (objects, [])
  {}

  class SubmissionQueue<O(!new), C(!new)> {
    const setup: Setup<O, C>
    const completion: CompletionQueue
    var queue: seq<Ticket>
    var entries: seq<Entry<O>>
    var unmatched: nat
    var running: bool

    constructor (setup: Setup<O, C>, completion: CompletionQueue)
      ensures this.setup == setup && this.completion == completion
      ensures queue == [] && State() == Objects([], 0) && running
    {
      this.setup := setup;
      this.completion := completion;
      queue, entries, unmatched, running := [], [], 0, true;
    }

    function State(): Objects<O>
      reads this
    {
      Objects(entries, unmatched)
    }

    method Enqueue(t: Ticket)
      modifies this`queue
      ensures queue == old(queue) + [t]
    {
      queue := queue + [t];
    }

    method StopWorker()
      modifies this`running
      ensures !running
    {
      running := false;
    }

    /** The position of the first entry with the token. */
    method SelectEnforcementObject(token: Token) returns (i: nat)
      ensures i == Find(entries, token)
    {
      i := 0;
      while i < |entries|
        invariant i <= |entries|
        invariant forall j | 0 <= j < i :: entries[j].token != token
      {
        if entries[i].token == token {
          break;
        }
        i := i + 1;
      }
      FindIs(entries, token, i);
    }

    method EnforceMechanism(t: Ticket, blank: Result) returns (r: Result)
      modifies this`entries, this`unmatched
      ensures (State(), r) == Enforce(setup.kind, setup.select, old(State()), t, blank)
    {
      hide TicketToken, Answered;
      var i := SelectEnforcementObject(TicketToken(setup.select, t));
      if i < |entries| {
        var (o, answer) := setup.kind.enforce(entries[i].obj, t, blank);
        entries := entries[i := Entry(entries[i].token, o)];
        r := answer;
      } else {
        unmatched := unmatched + 1;
        r := Answered(blank, t);
      }
    }

    method EnqueueFastPath(t: Ticket, blank: Result) returns (r: Result)
      modifies this`entries, this`unmatched
      ensures (State(), r) == Enforce(setup.kind, setup.select, old(State()), t, blank)
    {
      r := EnforceMechanism(t, blank);
    }

    /** Serves the ticket at the front into the completion queue; false when the wait was interrupted,
        nothing at all when the worker is still asleep. */
    method Dequeue(wakes: seq<Wake>) returns (served: Option<bool>)
      modifies this`queue, this`entries, this`unmatched, completion
      ensures match AwaitTicket(old(queue), wakes)
        case Ready(tickets) =>
          var blank := FreshResult(tickets[0].id);
          var (objects, r) := Enforce(setup.kind, setup.select, old(State()), tickets[0], blank);
          && served == Some(true)
          && queue == tickets[1..]
          && State() == objects
          && completion.queue == old(completion.queue) + [CopyOf(r)]
        case Interrupted(tickets) =>
          served == Some(false) && queue == tickets
          && State() == old(State()) && completion.queue == old(completion.queue)
        case StillWaiting =>
          served == None && queue == [] && State() == old(State()) && completion.queue == old(completion.queue)
    {
      var waits := 0;
      while |queue| == 0 && waits < |wakes|
        invariant waits <= |wakes|
        invariant AwaitTicket(queue, wakes[waits..]) == AwaitTicket(old(queue), wakes)
        invariant State() == old(State()) && completion.queue == old(completion.queue)
        decreases |wakes| - waits
      {
        var wake := wakes[waits];
        queue := wake.tickets;
        waits := waits + 1;
        if wake.timedOut && !wake.running {
          return Some(false);
        }
      }
      if |queue| == 0 {
        return None;
      }
      var t := queue[0];
      queue := queue[1..];
      var r := EnforceMechanism(t, FreshResult(t.id));
      completion.Enqueue(r);
      return Some(true);
    }

    /** The worker loop over `turns` turns with no other thread about: it serves tickets in order, as
        the fast path would, until it would fall asleep. */
    method Work(turns: nat) returns (count: nat)
      requires WellBehaved(setup.kind)
      modifies this`queue, this`entries, this`unmatched, completion
      ensures count == if !running then 0 else if turns < |old(queue)| then turns else |old(queue)|
      ensures queue == old(queue)[count..]
      ensures var (objects, results) := FastPath(setup, old(State()), Requested(old(queue)[..count]));
        State() == objects && completion.queue == old(completion.queue) + results
    {
      hide Enforce, FastPath, CopyOf, FreshResult;
      NothingRequested(setup, State());
      count := 0;
      assert queue[..count] == [];
      while running && count < turns && |queue| > 0
        invariant running == old(running)
        invariant count <= turns && count <= |old(queue)|
        invariant count > 0 ==> running
        invariant queue == old(queue)[count..]
        invariant FastPath(setup, old(State()), Requested(old(queue)[..count])).0 == State()
        invariant completion.queue ==
          old(completion.queue) + FastPath(setup, old(State()), Requested(old(queue)[..count])).1
        decreases turns - count
      {
        var t := queue[0];
        EnforceWellBehaved(setup.kind, setup.select, State(), t, t.id);
        RequestedGrows(setup, old(State()), old(queue)[..count], t);
        assert old(queue)[..count + 1] == old(queue)[..count] + [t];
        var served := Dequeue([]);
        count := count + 1;
      }
    }

    /** Refused when the token is taken; then nothing changes. */
    method CreateEnforcementObject(token: Token, o: O) returns (status: Status)
      modifies this`entries
      ensures (State(), status) == Create(old(State()), token, o)
    {
      var i := SelectEnforcementObject(token);
      if i < |entries| {
        return Failed;
      }
      entries := entries + [Entry(token, o)];
      status := OK;
    }

    method ConfigureEnforcementObject(token: Token, c: C) returns (status: Status)
      modifies this`entries
      ensures (State(), status) == Configure(setup.kind, old(State()), token, c)
    {
      var i := SelectEnforcementObject(token);
      if i == |entries| {
        return Failed;
      }
      var (o, answer) := setup.kind.configure(entries[i].obj, c);
      entries := entries[i := Entry(token, o)];
      status := answer;
    }
  }
}
