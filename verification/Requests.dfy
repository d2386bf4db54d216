/** Requests and results as they travel through a stage. */
module Requests {
  import opened Common

  type Bytes = seq<bv8>

  /** Context: what a client says about its request. */
  datatype Context = Context(workflow: int, opType: int, opContext: int, opSize: nat, operations: int)

  /** Ticket: what an enforcement object sees. */
  datatype Ticket = Ticket(id: nat, operations: int, payload: int, opType: int, opContext: int, buffer: Bytes)

  datatype ResultStatus = Success | Error | Unset

  datatype Result = Result(ticketId: nat, status: ResultStatus, hasContent: bool, contentSize: nat, content: Bytes)

  function FreshResult(id: nat): Result {
    Result(id, Unset, false, 0, [])
  }

  /** The copy constructor and the assignment: content travels only when it is flagged. */
  function CopyOf(r: Result): Result {
    if r.hasContent then r else r.(contentSize := 0, content := [])
  }

  /** What both enforcement objects write into a result. */
  function Answered(r: Result, t: Ticket): Result {
    if |t.buffer| > 0
    then Result(r.ticketId, Success, true, |t.buffer|, t.buffer)
    else r.(status := Success, hasContent := false)
  }

  /** Casting an unsigned 64-bit value to `long`. */
  function ToLong(x: int): int {
    var m := x % TWO_64;
    if m < TWO_64 / 2 then m else m - TWO_64
  }

  /** build_ticket: without content an operation counts at least one byte. */
  function BuildTicket(c: Context, id: nat, buffer: Bytes): Ticket {
    var size := if |buffer| == 0 && c.opSize == 0 then 1 else c.opSize;
    Ticket(id, c.operations, ToLong(size * c.operations), c.opType, c.opContext, buffer)
  }

  /** What a request is charged, in numbers.  A payload that fits a `long` is the size times the operations,
      where a request of no size and no content counts one byte an operation; beyond that it wraps
      around at 2^64. */
  lemma PayloadMeans(c: Context, id: nat, buffer: Bytes)
    ensures var payload := BuildTicket(c, id, buffer).payload;
      var product := c.opSize * c.operations;
      && ((c.opSize > 0 || |buffer| > 0) && -0x8000_0000_0000_0000 <= product < 0x8000_0000_0000_0000 ==>
            payload == product)
      && (c.opSize == 0 && |buffer| == 0 && -0x8000_0000_0000_0000 <= c.operations < 0x8000_0000_0000_0000 ==>
            payload == c.operations)
      && -0x8000_0000_0000_0000 <= payload < 0x8000_0000_0000_0000
      && exists q :: payload + 0x1_0000_0000_0000_0000 * q ==
           if c.opSize == 0 && |buffer| == 0 then c.operations else product
  {
    var x := if c.opSize == 0 && |buffer| == 0 then c.operations else c.opSize * c.operations;
    assert BuildTicket(c, id, buffer).payload == ToLong(x);
    ToLongMeans(x);
  }

  lemma ToLongMeans(x: int)
    ensures -0x8000_0000_0000_0000 <= x < 0x8000_0000_0000_0000 ==> ToLong(x) == x
    ensures -0x8000_0000_0000_0000 <= ToLong(x) < 0x8000_0000_0000_0000
    ensures exists q :: ToLong(x) + 0x1_0000_0000_0000_0000 * q == x
  {
    var q := x / 0x1_0000_0000_0000_0000;
    assert ToLong(x) + 0x1_0000_0000_0000_0000 * q == x || ToLong(x) + 0x1_0000_0000_0000_0000 * (q + 1) == x;
  }

  /** The rest of a ticket is the caller's own. */
  lemma TicketKeeps(c: Context, id: nat, buffer: Bytes)
    ensures var t := BuildTicket(c, id, buffer);
      && t.id == id && t.operations == c.operations
      && t.opType == c.opType && t.opContext == c.opContext
      && t.buffer == buffer
  {}

  /** A copy keeps everything of a result whose content is flagged, and all but the content otherwise. */
  lemma CopyMeans(r: Result)
    ensures var s := CopyOf(r);
      && s.ticketId == r.ticketId && s.status == r.status && s.hasContent == r.hasContent
      && (r.hasContent ==> s.contentSize == r.contentSize && s.content == r.content)
      && (!r.hasContent ==> s.contentSize == 0 && s.content == [])
  {}
}
