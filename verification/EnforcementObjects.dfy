/** The enforcement objects of a channel: a list of (token, object) pairs searched in order, and a
    fallback for requests that match none.  Objects are deterministic machines; nothing else is
    assumed about them here. */
module EnforcementObjects {
  import opened Common
  import opened Requests
  import opened Differentiation

  /** What an object does with a ticket and a result to fill, and with a configuration. */
  datatype Kind<!O, !C> = Kind(
    enforce: (O, Ticket, Result) -> (O, Result),
    configure: (O, C) -> (O, Status))

  datatype Entry<O> = Entry(token: Token, obj: O)

  /** `unmatched` counts what the fallback object has let through. */
  datatype Objects<O> = Objects(entries: seq<Entry<O>>, unmatched: nat)

  /** How a token is built from the classifiers of a request or an object. */
  type Selector = Pair -> Token

  /** `int` arguments reach the token builder as unsigned 32-bit values. */
  function ToClassifier(x: int): Classifier {
    x % 0x1_0000_0000
  }

  function TicketToken(select: Selector, t: Ticket): Token {
    select(Pair(ToClassifier(t.opType), ToClassifier(t.opContext)))
  }

  /** The first entry with the token, or the length of the list. */
  function Find<O>(entries: seq<Entry<O>>, token: Token): (i: nat)
    ensures i <= |entries|
    ensures i < |entries| ==> entries[i].token == token
    ensures forall j | 0 <= j < i :: entries[j].token != token
  {
    if |entries| == 0 then 0
    else if entries[0].token == token then 0
    else 1 + Find(entries[1..], token)
  }

  /** A position that holds the token while none before it does is the one that is found. */
  lemma FindIs<O>(entries: seq<Entry<O>>, token: Token, i: nat)
    requires i <= |entries|
    requires i < |entries| ==> entries[i].token == token
    requires forall j | 0 <= j < i :: entries[j].token != token
    ensures Find(entries, token) == i
  {}

  /** enforce_mechanism. */
  function Enforce<O, C>(kind: Kind<O, C>, select: Selector, s: Objects<O>, t: Ticket, r: Result)
    : (Objects<O>, Result)
  {
    var i := Find(s.entries, TicketToken(select, t));
    if i < |s.entries| then
      var (o, r') := kind.enforce(s.entries[i].obj, t, r);
      (s.(entries := s.entries[i := s.entries[i].(obj := o)]), r')
    else
      (s.(unmatched := s.unmatched + 1), Answered(r, t))
  }

  /** create_enforcement_object: tokens are never duplicated. */
  function Create<O>(s: Objects<O>, token: Token, o: O): (Objects<O>, Status) {
    if Find(s.entries, token) < |s.entries| then (s, Failed)
    else (s.(entries := s.entries + [Entry(token, o)]), OK)
  }

  /** configure_enforcement_object, by token. */
  function Configure<O, C>(kind: Kind<O, C>, s: Objects<O>, token: Token, c: C): (Objects<O>, Status) {
    var i := Find(s.entries, token);
    if i == |s.entries| then (s, Failed)
    else
      var (o, status) := kind.configure(s.entries[i].obj, c);
      (s.(entries := s.entries[i := s.entries[i].(obj := o)]), status)
  }

  /** No token twice. */
  ghost predicate DistinctTokens<O>(entries: seq<Entry<O>>) {
    forall i, j | 0 <= i < j < |entries| :: entries[i].token != entries[j].token
  }

  /** Objects fill in results without touching the ticket number, and turn a fresh result into one
      that the copy constructor preserves. */
  ghost predicate WellBehaved<O(!new), C(!new)>(kind: Kind<O, C>) {
    && (forall o, t, r :: kind.enforce(o, t, r).1.ticketId == r.ticketId)
    && (forall o, t, id :: CopyOf(kind.enforce(o, t, FreshResult(id)).1) == kind.enforce(o, t, FreshResult(id)).1)
  }

  lemma EnforceWellBehaved<O(!new), C(!new)>(kind: Kind<O, C>, select: Selector, s: Objects<O>, t: Ticket, id: nat)
    requires WellBehaved(kind)
    ensures var r := Enforce(kind, select, s, t, FreshResult(id)).1;
      r.ticketId == id && CopyOf(r) == r
  {
    var r := FreshResult(id);
    assert CopyOf(r) == r;
    assert CopyOf(Answered(r, t)) == Answered(r, t);
    var i := Find(s.entries, TicketToken(select, t));
    if i < |s.entries| {
      var o := s.entries[i].obj;
      assert kind.enforce(o, t, r).1.ticketId == r.ticketId;
    }
  }
}
