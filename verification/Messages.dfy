/** Byte messages cut into blocks of `w` bytes and a tail of fewer than `w` bytes. */
module Messages {
  import opened MurmurWords

  type Message = seq<Byte>

  /** Two messages of the same length that differ, and only inside block number `j`. */
  ghost predicate DifferInBlock(m: Message, m': Message, w: nat, j: nat) {
    && |m| == |m'|
    && (j + 1) * w <= |m|
    && m[..j * w] == m'[..j * w]
    && m[(j + 1) * w..] == m'[(j + 1) * w..]
    && m != m'
  }

  /** Two messages of the same length that differ, and only in the tail. */
  ghost predicate DifferInTail(m: Message, m': Message, w: nat)
    requires w > 0
  {
    && |m| == |m'|
    && m[..|m| / w * w] == m'[..|m| / w * w]
    && m != m'
  }

  ghost predicate DifferInOneUnit(m: Message, m': Message, w: nat)
    requires w > 0
  {
    DifferInTail(m, m', w) || exists j: nat :: DifferInBlock(m, m', w, j)
  }

  function Tail(m: Message, w: nat): (t: Message)
    requires w > 0
    ensures |t| == |m| % w
  {
    m[|m| / w * w..]
  }

  /** A tail byte, or zero past its end. */
  function At(t: Message, i: nat): Byte {
    if i < |t| then t[i] else 0
  }

  function Word32At(m: Message, at: nat): bv32
    requires at + 4 <= |m|
  {
    Word32(m[at], m[at + 1], m[at + 2], m[at + 3])
  }

  function Word64At(m: Message, at: nat): bv64
    requires at + 8 <= |m|
  {
    Word64(m[at], m[at + 1], m[at + 2], m[at + 3], m[at + 4], m[at + 5], m[at + 6], m[at + 7])
  }

  /** The word of a tail, zero-padded. */
  function TailWord32(t: Message, at: nat): bv32 {
    Word32(At(t, at), At(t, at + 1), At(t, at + 2), At(t, at + 3))
  }

  function TailWord64(t: Message, at: nat): bv64 {
    Word64(At(t, at), At(t, at + 1), At(t, at + 2), At(t, at + 3),
           At(t, at + 4), At(t, at + 5), At(t, at + 6), At(t, at + 7))
  }

  /** A byte moved to its place in a word. */
  function Place32(b: Byte, s: bv6): bv32
    requires s < 32
  {
    (b as bv32) << s
  }

  function Place64(b: Byte, s: bv7): bv64
    requires s < 64
  {
    (b as bv64) << s
  }

  /** What the fall-through `switch` gathers from the tail bytes `at ..`: high byte first, each
      byte shifted to its place and xored in, absent bytes skipped. */
  function Gather32(t: Message, at: nat): bv32 {
    var k3 := if |t| > at + 3 then Xor32(0, Place32(t[at + 3], 24)) else 0;
    var k2 := if |t| > at + 2 then Xor32(k3, Place32(t[at + 2], 16)) else k3;
    var k1 := if |t| > at + 1 then Xor32(k2, Place32(t[at + 1], 8)) else k2;
    if |t| > at then Xor32(k1, Place32(t[at], 0)) else k1
  }

  function Gather64(t: Message, at: nat): bv64 {
    var k7 := if |t| > at + 7 then Xor64(0, Place64(t[at + 7], 56)) else 0;
    var k6 := if |t| > at + 6 then Xor64(k7, Place64(t[at + 6], 48)) else k7;
    var k5 := if |t| > at + 5 then Xor64(k6, Place64(t[at + 5], 40)) else k6;
    var k4 := if |t| > at + 4 then Xor64(k5, Place64(t[at + 4], 32)) else k5;
    var k3 := if |t| > at + 3 then Xor64(k4, Place64(t[at + 3], 24)) else k4;
    var k2 := if |t| > at + 2 then Xor64(k3, Place64(t[at + 2], 16)) else k3;
    var k1 := if |t| > at + 1 then Xor64(k2, Place64(t[at + 1], 8)) else k2;
    if |t| > at then Xor64(k1, Place64(t[at], 0)) else k1
  }

  /** The gathered word is the zero-padded little-endian word: no two bytes overlap. */
  lemma Gather32IsTailWord(t: Message, at: nat)
    ensures Gather32(t, at) == TailWord32(t, at)
  {
    hide Word32, Xor32, Place32;
    XorWord32Is(At(t, at), At(t, at + 1), At(t, at + 2), At(t, at + 3));
    XorWord32Skips(At(t, at), At(t, at + 1), At(t, at + 2));
  }

  lemma Gather64IsTailWord(t: Message, at: nat)
    ensures Gather64(t, at) == TailWord64(t, at)
  {
    hide Word64, XorHigh64, Xor64, Place64;
    var a, b, c, d := At(t, at), At(t, at + 1), At(t, at + 2), At(t, at + 3);
    var e, f, g, h := At(t, at + 4), At(t, at + 5), At(t, at + 6), At(t, at + 7);
    XorWord64Is(a, b, c, d, e, f, g, h);
    if |t| <= at + 3 {
      XorLow64Skips(a, b, c);
    } else if |t| <= at + 7 {
      XorHigh64Skips(e, f, g);
    } else {
      XorHigh64Full(e, f, g, h);
    }
  }

  function XorWord32(a: Byte, b: Byte, c: Byte, d: Byte): bv32 {
    Xor32(Xor32(Xor32(Xor32(0, Place32(d, 24)), Place32(c, 16)), Place32(b, 8)), Place32(a, 0))
  }

  lemma XorWord32Is(a: Byte, b: Byte, c: Byte, d: Byte)
    ensures XorWord32(a, b, c, d) == Word32(a, b, c, d)
  {}

  lemma XorWord32Skips(a: Byte, b: Byte, c: Byte)
    ensures XorWord32(0, 0, 0, 0) == 0
    ensures XorWord32(a, 0, 0, 0) == Xor32(0, Place32(a, 0))
    ensures XorWord32(a, b, 0, 0) == Xor32(Xor32(0, Place32(b, 8)), Place32(a, 0))
    ensures XorWord32(a, b, c, 0) == Xor32(Xor32(Xor32(0, Place32(c, 16)), Place32(b, 8)), Place32(a, 0))
  {}

  function XorWord64(a: Byte, b: Byte, c: Byte, d: Byte, e: Byte, f: Byte, g: Byte, h: Byte): bv64 {
    Xor64(Xor64(Xor64(Xor64(XorHigh64(e, f, g, h), Place64(d, 24)), Place64(c, 16)), Place64(b, 8)), Place64(a, 0))
  }

  function XorHigh64(e: Byte, f: Byte, g: Byte, h: Byte): bv64 {
    Xor64(Xor64(Xor64(Xor64(0, Place64(h, 56)), Place64(g, 48)), Place64(f, 40)), Place64(e, 32))
  }

  lemma XorWord64Is(a: Byte, b: Byte, c: Byte, d: Byte, e: Byte, f: Byte, g: Byte, h: Byte)
    ensures XorWord64(a, b, c, d, e, f, g, h) == Word64(a, b, c, d, e, f, g, h)
  {
    HighHalf(e, f, g, h);
    LowerQuarter(c, d, e, f, g, h);
    LowestQuarter(a, b, c, d, e, f, g, h);
    hide Word64, XorHigh64, Xor64, Place64;
  }

  lemma HighHalf(e: Byte, f: Byte, g: Byte, h: Byte)
    ensures XorHigh64(e, f, g, h) == Word64(0, 0, 0, 0, e, f, g, h)
  {}

  lemma LowerQuarter(c: Byte, d: Byte, e: Byte, f: Byte, g: Byte, h: Byte)
    ensures Xor64(Xor64(Word64(0, 0, 0, 0, e, f, g, h), Place64(d, 24)), Place64(c, 16))
         == Word64(0, 0, c, d, e, f, g, h)
  {}

  lemma LowestQuarter(a: Byte, b: Byte, c: Byte, d: Byte, e: Byte, f: Byte, g: Byte, h: Byte)
    ensures Xor64(Xor64(Word64(0, 0, c, d, e, f, g, h), Place64(b, 8)), Place64(a, 0))
         == Word64(a, b, c, d, e, f, g, h)
  {}

  lemma XorHigh64Skips(e: Byte, f: Byte, g: Byte)
    ensures XorHigh64(0, 0, 0, 0) == 0
    ensures XorHigh64(e, 0, 0, 0) == Xor64(0, Place64(e, 32))
    ensures XorHigh64(e, f, 0, 0) == Xor64(Xor64(0, Place64(f, 40)), Place64(e, 32))
    ensures XorHigh64(e, f, g, 0) == Xor64(Xor64(Xor64(0, Place64(g, 48)), Place64(f, 40)), Place64(e, 32))
  {}

  lemma XorHigh64Full(e: Byte, f: Byte, g: Byte, h: Byte)
    ensures XorHigh64(e, f, g, h)
         == Xor64(Xor64(Xor64(Xor64(0, Place64(h, 56)), Place64(g, 48)), Place64(f, 40)), Place64(e, 32))
  {}

  lemma XorLow64Skips(a: Byte, b: Byte, c: Byte)
    ensures XorWord64(0, 0, 0, 0, 0, 0, 0, 0) == 0
    ensures XorWord64(a, 0, 0, 0, 0, 0, 0, 0) == Xor64(0, Place64(a, 0))
    ensures XorWord64(a, b, 0, 0, 0, 0, 0, 0) == Xor64(Xor64(0, Place64(b, 8)), Place64(a, 0))
    ensures XorWord64(a, b, c, 0, 0, 0, 0, 0) == Xor64(Xor64(Xor64(0, Place64(c, 16)), Place64(b, 8)), Place64(a, 0))
  {
    XorHigh64Skips(0, 0, 0);
  }

  function Byte64(w: bv64, i: bv7): Byte
    requires i < 8
  {
    ((w >> (8 * i)) & 0xff) as Byte
  }

  lemma Word64Bytes(a: Byte, b: Byte, c: Byte, d: Byte, e: Byte, f: Byte, g: Byte, h: Byte)
    ensures Byte64(Word64(a, b, c, d, e, f, g, h), 0) == a
    ensures Byte64(Word64(a, b, c, d, e, f, g, h), 1) == b
    ensures Byte64(Word64(a, b, c, d, e, f, g, h), 2) == c
    ensures Byte64(Word64(a, b, c, d, e, f, g, h), 3) == d
    ensures Byte64(Word64(a, b, c, d, e, f, g, h), 4) == e
    ensures Byte64(Word64(a, b, c, d, e, f, g, h), 5) == f
    ensures Byte64(Word64(a, b, c, d, e, f, g, h), 6) == g
    ensures Byte64(Word64(a, b, c, d, e, f, g, h), 7) == h
  {}

  /** Equal words come from equal bytes. */
  lemma Word32Separates(m: Message, m': Message, at: nat)
    requires at + 4 <= |m| && at + 4 <= |m'|
    requires Word32At(m, at) == Word32At(m', at)
    ensures m[at..at + 4] == m'[at..at + 4]
  {
    hide Word32, Byte32;
    Word32Bytes(m[at], m[at + 1], m[at + 2], m[at + 3]);
    Word32Bytes(m'[at], m'[at + 1], m'[at + 2], m'[at + 3]);
  }

  lemma Word64Separates(m: Message, m': Message, at: nat)
    requires at + 8 <= |m| && at + 8 <= |m'|
    requires Word64At(m, at) == Word64At(m', at)
    ensures m[at..at + 8] == m'[at..at + 8]
  {
    hide Word64, Byte64;
    Word64Bytes(m[at], m[at + 1], m[at + 2], m[at + 3], m[at + 4], m[at + 5], m[at + 6], m[at + 7]);
    Word64Bytes(m'[at], m'[at + 1], m'[at + 2], m'[at + 3], m'[at + 4], m'[at + 5], m'[at + 6], m'[at + 7]);
  }

  /** Equal tail words hold equal bytes. */
  lemma TailWord32Byte(t: Message, t': Message, at: nat, i: nat)
    requires |t| == |t'| && at <= i < at + 4 && i < |t|
    requires TailWord32(t, at) == TailWord32(t', at)
    ensures t[i] == t'[i]
  {
    hide Word32, Byte32;
    Word32Bytes(At(t, at), At(t, at + 1), At(t, at + 2), At(t, at + 3));
    Word32Bytes(At(t', at), At(t', at + 1), At(t', at + 2), At(t', at + 3));
  }

  lemma TailWord64Byte(t: Message, t': Message, at: nat, i: nat)
    requires |t| == |t'| && at <= i < at + 8 && i < |t|
    requires TailWord64(t, at) == TailWord64(t', at)
    ensures t[i] == t'[i]
  {
    hide Word64, Byte64;
    Word64Bytes(At(t, at), At(t, at + 1), At(t, at + 2), At(t, at + 3),
                At(t, at + 4), At(t, at + 5), At(t, at + 6), At(t, at + 7));
    Word64Bytes(At(t', at), At(t', at + 1), At(t', at + 2), At(t', at + 3),
                At(t', at + 4), At(t', at + 5), At(t', at + 6), At(t', at + 7));
  }

  /** Where two messages that differ in one block agree. */
  lemma AgreeOutside(m: Message, m': Message, w: nat, j: nat, p: nat)
    requires DifferInBlock(m, m', w, j)
    requires p < |m| && (p < j * w || (j + 1) * w <= p)
    ensures m[p] == m'[p]
  {
    if p < j * w {
      assert m[p] == m[..j * w][p];
    } else {
      assert m[p] == m[(j + 1) * w..][p - (j + 1) * w];
    }
  }

  /** They do not agree inside it. */
  lemma DisagreeInside(m: Message, m': Message, w: nat, j: nat)
    requires DifferInBlock(m, m', w, j)
    ensures m[j * w..(j + 1) * w] != m'[j * w..(j + 1) * w]
  {
    assert m == m[..j * w] + m[j * w..(j + 1) * w] + m[(j + 1) * w..];
    assert m' == m'[..j * w] + m'[j * w..(j + 1) * w] + m'[(j + 1) * w..];
  }
}
