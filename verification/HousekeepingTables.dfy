/** Housekeeping rules and the table that stores them with two counters, one call at a time. */
module HousekeepingTables {
  import opened Common

  datatype Operation = CreateChannel | CreateObject | ConfigureObject | RemoveObject | NoOp

  datatype Rule = Rule(
    operation: Operation, channelId: int, objectId: int, properties: seq<int>, enforced: bool)

  type Table = map<nat, Rule>

  /** A property that is not there reads as -1. */
  function Property(r: Rule, index: nat): int {
    if |r.properties| >= index + 1 then r.properties[index] else -1
  }

  /** The properties from `first` on; none if `first` is past the end. */
  function PropertiesFrom(r: Rule, first: nat): seq<int> {
    if first < |r.properties| then r.properties[first..] else []
  }

  /** Appends the properties between two indexes, both included, or refuses with -1. */
  method GetPropertiesAtRange(r: Rule, begin: nat, end: int, selected: seq<int>) returns (count: int, more: seq<int>)
    ensures begin <= end < |r.properties| ==>
      count == end - begin + 1 && more == selected + r.properties[begin..end + 1]
    ensures !(begin <= end < |r.properties|) ==> count == -1 && more == selected
  {
    more := selected;
    if |r.properties| >= begin + 1 && |r.properties| >= end + 1 && begin <= end {
      count := 0;
      for i := begin to end + 1
        invariant count == i - begin
        invariant more == selected + r.properties[begin..i]
      {
        more := more + [r.properties[i]];
        count := count + 1;
      }
    } else {
      count := -1;
    }
  }

  /** The rules that are not enforced yet, and those that are. */
  function Pending(t: Table): set<nat> {
    set id | id in t && !t[id].enforced
  }

  function EnforcedRules(t: Table): set<nat> {
    set id | id in t && t[id].enforced
  }

  function Insert(t: Table, id: nat, r: Rule): (Table, Status) {
    if id in t then (t, Failed) else (t[id := r], OK)
  }

  function Mark(t: Table, id: nat): (Table, Status) {
    if id !in t then (t, NotFound)
    else if t[id].enforced then (t, Failed)
    else (t[id := t[id].(enforced := true)], OK)
  }

  function Remove(t: Table, id: nat): (Table, Status) {
    if id !in t then (t, NotFound) else (t - {id}, OK)
  }

  lemma InsertCounts(t: Table, id: nat, r: Rule)
    requires id !in t
    ensures |t[id := r]| == |t| + 1
    ensures |Pending(t[id := r])| == |Pending(t)| + if r.enforced then 0 else 1
    ensures |EnforcedRules(t[id := r])| == |EnforcedRules(t)| + if r.enforced then 1 else 0
  {
    var u := t[id := r];
    assert u.Keys == t.Keys + {id};
    PendingInsert(t, id, r);
    EnforcedInsert(t, id, r);
    hide Pending, EnforcedRules;
  }

  lemma PendingInsert(t: Table, id: nat, r: Rule)
    requires id !in t
    ensures id !in Pending(t)
    ensures Pending(t[id := r]) == if r.enforced then Pending(t) else Pending(t) + {id}
  {}

  lemma EnforcedInsert(t: Table, id: nat, r: Rule)
    requires id !in t
    ensures id !in EnforcedRules(t)
    ensures EnforcedRules(t[id := r]) == if r.enforced then EnforcedRules(t) + {id} else EnforcedRules(t)
  {}

  lemma MarkCounts(t: Table, id: nat)
    requires id in t && !t[id].enforced
    ensures |Mark(t, id).0| == |t|
    ensures |Pending(Mark(t, id).0)| == |Pending(t)| - 1
    ensures |EnforcedRules(Mark(t, id).0)| == |EnforcedRules(t)| + 1
  {
    var u := Mark(t, id).0;
    assert u.Keys == t.Keys;
    assert Pending(u) == Pending(t) - {id};
    assert EnforcedRules(u) == EnforcedRules(t) + {id};
  }

  lemma RemoveCounts(t: Table, id: nat)
    requires id in t
    ensures |t - {id}| == |t| - 1
    ensures |Pending(t - {id})| == |Pending(t)| - if t[id].enforced then 0 else 1
  {
    assert (t - {id}).Keys == t.Keys - {id};
    assert Pending(t - {id}) == Pending(t) - if t[id].enforced then {} else {id};
  }

  class HousekeepingTable {
    var rules: Table
    var numberOfRules: int
    var leftToEmploy: int

    /** The counters agree with the table. */
    ghost predicate Valid()
      reads this
    {
      numberOfRules == |rules| && leftToEmploy == |Pending(rules)|
    }

    constructor ()
      ensures Valid() && rules == map[]
    {
      rules, numberOfRules, leftToEmploy := map[], 0, 0;
    }

    method InsertHousekeepingRule(id: nat, operation: Operation, channelId: int, objectId: int, properties: seq<int>)
      returns (status: Status)
      requires Valid()
      modifies this
      ensures Valid()
      ensures (rules, status) == Insert(old(rules), id, Rule(operation, channelId, objectId, properties, false))
      ensures id in old(rules) ==> status == Failed && rules == old(rules)
      ensures id !in old(rules) ==>
        status == OK && rules == old(rules)[id := Rule(operation, channelId, objectId, properties, false)]
    {
      var r := Rule(operation, channelId, objectId, properties, false);
      if id in rules {
        return Failed;
      }
      InsertCounts(rules, id, r);
      rules := rules[id := r];
      numberOfRules := numberOfRules + 1;
      leftToEmploy := leftToEmploy + 1;
      status := OK;
    }

    method SelectHousekeepingRule(id: nat) returns (status: Status, r: Rule)
      ensures status == if id in rules then OK else NotFound
      ensures id in rules ==> r == rules[id]
    {
      if id in rules {
        return OK, rules[id];
      }
      return NotFound, Rule(NoOp, -1, -1, [], false);
    }

    method MarkHousekeepingRuleAsEnforced(id: nat) returns (status: Status)
      requires Valid()
      modifies this
      ensures Valid()
      ensures (rules, status) == Mark(old(rules), id)
      ensures id !in old(rules) ==> status == NotFound && rules == old(rules)
      ensures id in old(rules) && old(rules)[id].enforced ==> status == Failed && rules == old(rules)
      ensures id in old(rules) && !old(rules)[id].enforced ==>
        status == OK && rules == old(rules)[id := old(rules)[id].(enforced := true)]
    {
      if id !in rules {
        return NotFound;
      }
      if rules[id].enforced {
        return Failed;
      }
      MarkCounts(rules, id);
      rules := rules[id := rules[id].(enforced := true)];
      leftToEmploy := leftToEmploy - 1;
      status := OK;
    }

    method RemoveHousekeepingRule(id: nat) returns (status: Status)
      requires Valid()
      modifies this
      ensures Valid()
      ensures (rules, status) == Remove(old(rules), id)
      ensures id !in old(rules) ==> status == NotFound && rules == old(rules)
      ensures id in old(rules) ==> status == OK && rules == old(rules) - {id}
    {
      if id !in rules {
        return NotFound;
      }
      RemoveCounts(rules, id);
      if !rules[id].enforced {
        leftToEmploy := leftToEmploy - 1;
      }
      rules := rules - {id};
      numberOfRules := numberOfRules - 1;
      status := OK;
    }
  }
}
