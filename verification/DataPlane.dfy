/** The core of a stage and its channels as the classes that own them, proved against the stage as a
    value: every method turns the value into what the function of the same step gives. */
module DataPlane {
  import opened Common
  import opened Requests
  import opened Differentiation
  import opened EnforcementObjects
  import opened HousekeepingTables
  import opened QueueProtocol
  import opened SubmissionQueues
  import S = Stages
  import DefaultStages

  /** The token of the first linker with the identifier, or -1 as an unsigned value. */
  method GetDiffToken(linkers: seq<S.Linker>, id: int) returns (token: Token)
    ensures token == S.Lookup(linkers, id)
  {
    var i := 0;
    while i < |linkers|
      invariant i <= |linkers|
      invariant forall j | 0 <= j < i :: linkers[j].id != id
    {
      if linkers[i].id == id {
        S.PositionIs(linkers, id, i);
        return linkers[i].token;
      }
      i := i + 1;
    }
    S.PositionIs(linkers, id, i);
    return S.NOT_FOUND;
  }

  class ChannelDefault {
    const k: S.Classification
    const queue: SubmissionQueue<S.Obj, S.Config>
    var linkers: seq<S.Linker>
    var ticketId: nat
    ghost var issued: nat

    /** The ticket counter wraps around at 2^64. */
    ghost predicate Valid()
      reads this
    {
      queue.setup == Setup(S.MACHINE, k.objects) && ticketId == issued % TWO_64
    }

    ghost function View(): S.Channel
      reads this, queue
    {
      S.Channel(linkers, queue.State(), issued)
    }

    constructor (k: S.Classification)
      ensures Valid() && this.k == k && View() == S.NO_OBJECTS && fresh(queue)
    {
      this.k := k;
      var completion := new CompletionQueue();
      queue := new SubmissionQueue<S.Obj, S.Config>(Setup(S.MACHINE, k.objects), completion);
      linkers, ticketId, issued := [], 0, 0;
    }

    /** Numbers are handed out one after another. */
    method BuildTicket(c: Requests.Context, buffer: Bytes) returns (t: Ticket)
      requires Valid()
      modifies this`ticketId, this`issued
      ensures Valid() && issued == old(issued) + 1
      ensures t == Requests.BuildTicket(c, old(issued) % TWO_64, buffer)
      ensures t.id == old(issued) % 0x1_0000_0000_0000_0000 && t.operations == c.operations
      ensures t.opType == c.opType && t.opContext == c.opContext && t.buffer == buffer
      ensures var product := c.opSize * c.operations;
        (c.opSize > 0 || |buffer| > 0) && -0x8000_0000_0000_0000 <= product < 0x8000_0000_0000_0000 ==>
          t.payload == product
      ensures c.opSize == 0 && |buffer| == 0 && -0x8000_0000_0000_0000 <= c.operations < 0x8000_0000_0000_0000 ==>
        t.payload == c.operations
    {
      PayloadMeans(c, old(issued) % TWO_64, buffer);
      var operationSize := if |buffer| == 0 && c.opSize == 0 then 1 else c.opSize;
      t := Ticket(ticketId, c.operations, ToLong(operationSize * c.operations), c.opType, c.opContext, buffer);
      ticketId := (ticketId + 1) % TWO_64;
      issued := issued + 1;
    }

    method ChannelEnforce(c: Requests.Context, buffer: Bytes, r: Result) returns (answer: Result)
      requires Valid()
      modifies this`ticketId, this`issued, queue`entries, queue`unmatched
      ensures Valid()
      ensures (View(), answer) == S.EnforceInChannel(k, old(View()), c, buffer, r)
      ensures answer.status == Success && answer.ticketId == old(issued) % 0x1_0000_0000_0000_0000
      ensures answer.hasContent <==> |buffer| > 0
      ensures |buffer| > 0 ==> answer.contentSize == |buffer| && answer.content == buffer
      ensures |buffer| == 0 ==> answer.contentSize == r.contentSize && answer.content == r.content
    {
      hide Enforce, Requests.BuildTicket;
      S.ChannelAnswers(k, View(), c, buffer, r);
      var t := BuildTicket(c, buffer);
      assert t.id == old(issued) % TWO_64 by { TicketNumber(c, old(issued) % TWO_64, buffer); }
      answer := queue.EnqueueFastPath(t, r.(ticketId := t.id));
    }

    method CreateEnforcementObject(id: int, p: Pair, code: int, configs: seq<int>) returns (status: Status)
      requires Valid()
      modifies this`linkers, queue`entries
      ensures Valid()
      ensures (View(), status) == S.CreateInChannel(k, old(View()), id, p, code, configs)
    {
      hide Create, Configure;
      var token := k.objects(p);
      var kind := S.TypeOf(code);
      match kind {
        case None => status := NotSupported;
        case Some(kind) => status := queue.CreateEnforcementObject(token, S.Obj(kind, id, []));
      }
      if status == OK {
        linkers := linkers + [S.Linker(id, token)];
        if |configs| > 0 && kind.value.Drl? {
          status := queue.ConfigureEnforcementObject(token, S.Config(INIT, configs));
        }
      }
    }

    method ConfigureEnforcementObject(id: int, c: S.Config) returns (status: Status)
      requires Valid()
      modifies queue`entries
      ensures Valid()
      ensures (View(), status) == S.ConfigureInChannel(old(View()), id, c)
    {
      var token := GetDiffToken(linkers, id);
      if token == S.NOT_FOUND {
        return Failed;
      }
      status := queue.ConfigureEnforcementObject(token, c);
    }
  }

  lemma TicketNumber(c: Requests.Context, id: nat, buffer: Bytes)
    ensures Requests.BuildTicket(c, id, buffer).id == id
  {}

  lemma OneKeyChanged<K, V>(before: map<K, V>, after: map<K, V>, k: K)
    requires after.Keys == before.Keys + {k}
    requires forall x | x in after && x != k :: after[x] == before[x]
    ensures after == before[k := after[k]]
  {}

  ghost function QueuesOf(channels: map<Token, ChannelDefault>): set<object> {
    set token | token in channels :: channels[token].queue
  }

  lemma OneMoreChannel(channels: map<Token, ChannelDefault>, token: Token, ch: ChannelDefault)
    ensures channels[token := ch].Values <= channels.Values + {ch}
    ensures QueuesOf(channels[token := ch]) <= QueuesOf(channels) + {ch.queue}
  {}

  class Core {
    const k: S.Classification
    const table: HousekeepingTable
    var channels: map<Token, ChannelDefault>
    var linkers: seq<S.Linker>

    /** Channels have separate queues, so they are separate objects. */
    ghost predicate Valid()
      reads this, table, channels.Values
    {
      table.Valid() && Separate(channels)
    }

    ghost function Queues(): set<object>
      reads this
    {
      QueuesOf(channels)
    }

    ghost function View(): S.Stage
      reads this, table, channels.Values, Queues()
    {
      S.Stage(linkers, map token | token in channels :: channels[token].View(), table.rules)
    }

    constructor Empty(k: S.Classification)
      ensures Valid() && this.k == k && View() == S.EMPTY_STAGE
      ensures fresh(table) && channels == map[]
    {
      this.k := k;
      table := new HousekeepingTable();
      channels, linkers := map[], [];
    }

    method SelectChannel(token: Token) returns (found: Option<ChannelDefault>)
      ensures found == if token in channels then Some(channels[token]) else None
    {
      found := if token in channels then Some(channels[token]) else None;
    }

    method DoesChannelIdExist(id: int) returns (exists': bool)
      ensures exists' <==> S.Position(linkers, id) < |linkers|
    {
      var i := 0;
      while i < |linkers| && linkers[i].id != id
        invariant i <= |linkers|
        invariant forall j | 0 <= j < i :: linkers[j].id != id
      {
        i := i + 1;
      }
      S.PositionIs(linkers, id, i);
      return i < |linkers|;
    }

    /** Adds a new channel and its linker. */
    method Install(id: int, token: Token, ch: ChannelDefault)
      requires Valid() && token !in channels && ch.Valid() && ch.k == k && ch.View() == S.NO_OBJECTS
      requires forall t | t in channels :: channels[t].queue != ch.queue
      modifies this
      ensures Valid() && channels == old(channels)[token := ch]
      ensures View() == S.WithChannel(old(View()), id, token)
    {
      ghost var before, was := View(), channels;
      ViewedAs(before);
      assert Separate(was) && table.Valid();
      hide Core.Valid, Core.View, ChannelDefault.Valid, ChannelDefault.View, Separate, S.WithChannel;
      channels := channels[token := ch];
      linkers := linkers + [S.Linker(id, token)];
      StillSeparate(was, token, ch);
      Viewed(before, was, token);
    }

    /** Channels with their own queues, of this core's classification. */
    ghost predicate Separate(channels: map<Token, ChannelDefault>)
      reads channels.Values
    {
      && (forall token | token in channels :: channels[token].Valid() && channels[token].k == k)
      && (forall a, b | a in channels && b in channels && a != b :: channels[a].queue != channels[b].queue)
    }

    lemma StillSeparate(was: map<Token, ChannelDefault>, token: Token, ch: ChannelDefault)
      requires Separate(was) && ch.Valid() && ch.k == k && table.Valid()
      requires forall t | t in was :: was[t].queue != ch.queue
      requires channels == was[token := ch]
      ensures Valid()
    {
      hide ChannelDefault.Valid;
    }

    lemma ViewedAs(value: S.Stage)
      requires value == View()
      ensures value.linkers == linkers && value.table == table.rules && value.channels.Keys == channels.Keys
      ensures forall t | t in channels :: value.channels[t] == channels[t].View()
    {}

    /** The value after one more channel, as the fields give it. */
    lemma Viewed(before: S.Stage, was: map<Token, ChannelDefault>, token: Token)
      requires token in channels && |linkers| > 0 && linkers[|linkers| - 1].token == token
      requires before.linkers == linkers[..|linkers| - 1] && before.table == table.rules
      requires token !in was && channels == was[token := channels[token]] && before.channels.Keys == was.Keys
      requires forall t | t in was :: before.channels[t] == was[t].View()
      requires channels[token].View() == S.NO_OBJECTS
      ensures View() == S.WithChannel(before, linkers[|linkers| - 1].id, token)
    {
      OneKeyChanged(before.channels, View().channels, token);
    }

    /** Builds a new channel and installs it. */
    method InstallNew(id: int, token: Token)
      requires Valid() && token !in channels
      modifies this
      ensures Valid()
      ensures fresh(channels.Values - old(channels.Values)) && fresh(Queues() - old(Queues()))
      ensures View() == S.WithChannel(old(View()), id, token)
    {
      hide Core.View, ChannelDefault.View, ChannelDefault.Valid, S.WithChannel;
      var ch := new ChannelDefault(k);
      OneMoreChannel(channels, token, ch);
      Install(id, token, ch);
      hide Core.Valid, QueuesOf;
    }

    method CreateChannel(id: int, x: Tuple) returns (status: Status)
      requires Valid()
      modifies this
      ensures Valid()
      ensures fresh(channels.Values - old(channels.Values)) && fresh(Queues() - old(Queues()))
      ensures (View(), status) == S.AddChannel(k, old(View()), id, x)
    {
      var token := S.ChannelToken(k, x);
      hide S.ChannelToken, S.Position, Core.View;
      KnownChannels();
      var taken := DoesChannelIdExist(id);
      if token !in channels && !taken {
        InstallNew(id, token);
        status := OK;
      } else {
        status := Failed;
      }
    }

    /** The value has the same channels and linkers. */
    lemma KnownChannels()
      ensures View().channels.Keys == channels.Keys && View().linkers == linkers && View().table == table.rules
    {}

    /** When one channel and its queue changed and nothing else, so did the value. */
    twostate lemma OneChannelChanged(token: Token)
      requires old(Valid()) && token in channels && channels[token].Valid()
      requires channels == old(channels) && unchanged(this) && unchanged(table)
      requires forall t | t in channels && t != token :: unchanged(channels[t]) && unchanged(channels[t].queue)
      ensures Valid() && Queues() == old(Queues())
      ensures View() == old(View()).(channels := old(View()).channels[token := channels[token].View()])
    {
      var before, after := old(View()).channels, View().channels;
      forall t | t in after && t != token
        ensures after[t] == before[t]
      {
        assert channels[t].View() == old(channels[t].View());
      }
      OneKeyChanged(before, after, token);
    }

    method CreateEnforcementObject(channelId: int, id: int, p: Pair, code: int, configs: seq<int>)
      returns (status: Status)
      requires Valid()
      modifies channels.Values, Queues()
      ensures Valid()
      ensures (View(), status) == S.AddObject(k, old(View()), channelId, id, p, code, configs)
    {
      hide S.CreateInChannel, S.Lookup;
      var token := GetDiffToken(linkers, channelId);
      if token == S.NOT_FOUND {
        return Failed;
      }
      var found := SelectChannel(token);
      if found.None? {
        return Failed;
      }
      status := found.value.CreateEnforcementObject(id, p, code, configs);
      OneChannelChanged(token);
    }

    method EmployEnforcementRule(channelId: int, id: int, config: int, values: seq<int>) returns (status: Status)
      requires Valid()
      modifies channels.Values, Queues()
      ensures Valid()
      ensures (View(), status) == S.Employ(old(View()), channelId, id, S.Config(config, values))
    {
      hide S.ConfigureInChannel, S.Lookup;
      var token := GetDiffToken(linkers, channelId);
      if token == S.NOT_FOUND {
        return Failed;
      }
      var found := SelectChannel(token);
      if found.None? {
        return Failed;
      }
      status := found.value.ConfigureEnforcementObject(id, S.Config(config, values));
      OneChannelChanged(token);
    }

    method EnforceRequest(c: Requests.Context, buffer: Bytes, r: Result) returns (answer: Result)
      requires Valid()
      modifies channels.Values, Queues()
      ensures Valid()
      ensures (View(), answer) == S.EnforceRequest(k, old(View()), c, buffer, r)
      ensures var found := S.ChannelToken(k, S.TupleOfContext(c)) in channels;
        && (found ==> answer.status == Success && (answer.hasContent <==> |buffer| > 0))
        && (found && |buffer| > 0 ==> answer.contentSize == |buffer| && answer.content == buffer)
        && (!found ==> answer == r)
    {
      hide S.EnforceInChannel, S.ChannelToken;
      var token := S.ChannelToken(k, S.TupleOfContext(c));
      var found := SelectChannel(token);
      if found.None? {
        return r;
      }
      answer := found.value.ChannelEnforce(c, buffer, r);
      OneChannelChanged(token);
    }

    method InsertHousekeepingRule(id: nat, operation: Operation, channelId: int, objectId: int, properties: seq<int>)
      returns (status: Status)
      requires Valid()
      modifies table
      ensures Valid()
      ensures var (rules, s) := Insert(old(View()).table, id, Rule(operation, channelId, objectId, properties, false));
        View() == old(View()).(table := rules) && status == s
    {
      hide Insert;
      status := table.InsertHousekeepingRule(id, operation, channelId, objectId, properties);
      TableChanged();
    }

    /** When the table changed and nothing else, so did the value. */
    twostate lemma TableChanged()
      requires old(Valid()) && table.Valid()
      requires unchanged(this) && unchanged(channels.Values) && unchanged(Queues())
      ensures Valid() && Queues() == old(Queues())
      ensures View() == old(View()).(table := table.rules)
    {
      assert View().channels == old(View()).channels;
    }

    method ExecuteHousekeepingRule(id: nat) returns (outcome: S.Outcome)
      requires Valid()
      modifies this, table, channels.Values, Queues()
      ensures Valid()
      ensures fresh(channels.Values - old(channels.Values)) && fresh(Queues() - old(Queues()))
      ensures (View(), outcome) == S.ExecuteRule(k, old(View()), id)
    {
      hide S.Carry, Core.Valid, Core.View;
      KnownChannels();
      var status, rule := table.SelectHousekeepingRule(id);
      if status != OK {
        return S.Returned(NotFound);
      }
      if rule.enforced {
        return S.Returned(Enforced);
      }
      if !rule.operation.CreateChannel? && !rule.operation.CreateObject? {
        return S.LogicError;
      }
      status := Carry(rule);
      if status == OK {
        MarkRule(id);
      }
      outcome := S.Returned(status);
    }

    /** Creates the channel or object a rule asks for. */
    method Carry(r: Rule) returns (status: Status)
      requires Valid() && S.CreateRule(r)
      modifies this, channels.Values, Queues()
      ensures Valid()
      ensures fresh(channels.Values - old(channels.Values)) && fresh(Queues() - old(Queues()))
      ensures (View(), status) == S.Carry(k, old(View()), r)
    {
      hide S.AddChannel, S.AddObject, S.TupleOf, S.PairOf, Property, Core.Valid, Core.View;
      if r.operation.CreateChannel? {
        status := CreateChannel(r.channelId, S.TupleOf(r));
      } else {
        var _, configs := GetPropertiesAtRange(r, 4, |r.properties| - 1, []);
        assert configs == PropertiesFrom(r, 4);
        status := CreateEnforcementObject(r.channelId, r.objectId, S.PairOf(r), Property(r, 3), configs);
      }
    }

    method MarkRule(id: nat)
      requires Valid()
      modifies table
      ensures Valid()
      ensures View() == old(View()).(table := Mark(old(View()).table, id).0)
    {
      var status := table.MarkHousekeepingRuleAsEnforced(id);
      TableChanged();
    }

    /** One pass over the table, in the order the hash table gives. */
    method ExecuteHousekeepingRules(order: seq<nat>) returns (outcome: S.Outcome)
      requires Valid()
      modifies this, table, channels.Values, Queues()
      ensures Valid()
      ensures (View(), outcome) == S.ExecuteAll(k, old(View()), order)
    {
      hide S.ExecuteRule, Core.Valid, Core.View;
      outcome := S.Returned(Failed);
      for i := 0 to |order|
        invariant Valid()
        invariant fresh(channels.Values - old(channels.Values)) && fresh(Queues() - old(Queues()))
        invariant S.ExecuteRules(k, View(), order[i..], outcome) == S.ExecuteAll(k, old(View()), order)
      {
        KnownChannels();
        assert order[i..][1..] == order[i + 1..];
        if order[i] in table.rules && !table.rules[order[i]].enforced {
          outcome := ExecuteHousekeepingRule(order[i]);
          if outcome == S.LogicError || outcome == S.Returned(Failed) {
            return;
          }
        }
      }
    }

    /** The parameterized constructor: default channels, each with a no-op object if asked for. */
    constructor (k: S.Classification, channels': int, createDefaultChannels: bool, createDefaultObjects: bool)
      ensures Valid() && this.k == k
      ensures View() ==
        if createDefaultChannels && channels' > 0 then DefaultStages.WithDefaults(k, channels', createDefaultObjects)
        else S.EMPTY_STAGE
    {
      this.k := k;
      table := new HousekeepingTable();
      channels, linkers := map[], [];
      new;
      NothingYet();
      if createDefaultChannels && channels' > 0 {
        CreateDefaultChannels(channels', createDefaultObjects);
      }
    }

    /** The constructor's loop. */
    method CreateDefaultChannels(count: nat, withObjects: bool)
      requires Valid() && View() == S.EMPTY_STAGE
      modifies this, channels.Values, Queues()
      ensures Valid() && View() == DefaultStages.WithDefaults(k, count, withObjects)
    {
      hide DefaultStages.AddDefault, Core.Valid, Core.View;
      for i := 1 to count + 1
        invariant Valid()
        invariant fresh(channels.Values - old(channels.Values)) && fresh(Queues() - old(Queues()))
        invariant View() == DefaultStages.WithDefaults(k, i - 1, withObjects)
      {
        CreateDefaultChannel(i, withObjects);
      }
    }

    method CreateDefaultChannel(i: nat, withObject: bool)
      requires Valid()
      modifies this, channels.Values, Queues()
      ensures Valid()
      ensures fresh(channels.Values - old(channels.Values)) && fresh(Queues() - old(Queues()))
      ensures View() == DefaultStages.AddDefault(k, old(View()), i, withObject)
    {
      hide S.AddChannel, S.AddObject, Core.Valid, Core.View, DefaultStages.DefaultTuple;
      var status := CreateChannel(i, DefaultStages.DefaultTuple(i));
      if withObject && status == OK {
        status := CreateEnforcementObject(i, 0, Pair(0, 0), DefaultStages.NOOP_CODE, []);
      }
    }

    lemma NothingYet()
      requires table.Valid() && table.rules == map[] && channels == map[] && linkers == []
      ensures Valid() && View() == S.EMPTY_STAGE
    {}
  }
}
