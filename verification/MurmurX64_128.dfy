/** MurmurHash3_x64_128: two 64-bit lanes, 16-byte blocks. */
module MurmurX64_128 {
  import opened MurmurWords
  import opened Messages
  import opened BlockFold

  datatype Lanes = Lanes(h1: bv64, h2: bv64)
  datatype Block = Block(k1: bv64, k2: bv64)

  const SEED := Lanes(42, 42)
  const C1: bv64 := 0x87c37b91114253d5
  const C2: bv64 := 0x4cf5ad432745937f
  // their inverses modulo 2^64
  const D1: bv64 := 0xa98409e882ce4d7d
  const D2: bv64 := 0xa81e14edd9de2c7f

  // the two block-word scramblings and their inverses
  function S1(k: bv64): bv64 { Scramble64(k, C1, 31, C2) }
  function S2(k: bv64): bv64 { Scramble64(k, C2, 33, C1) }
  function R1(w: bv64): bv64 { Scramble64(w, D2, 33, D1) }
  function R2(w: bv64): bv64 { Scramble64(w, D1, 31, D2) }

  lemma InverseConstants()
    ensures Times64(C1, D1) == 1 && Times64(D1, C1) == 1
    ensures Times64(C2, D2) == 1 && Times64(D2, C2) == 1
  {}

  lemma ScramblesUndone(k: bv64)
    ensures R1(S1(k)) == k && S1(R1(k)) == k
    ensures R2(S2(k)) == k && S2(R2(k)) == k
  {
    InverseConstants();
    hide Scramble64, Times64;
    Scramble64Undone(k, C1, 31, C2, D1, D2);
    Scramble64Undone(k, C2, 33, C1, D2, D1);
    Scramble64Undone(k, D2, 33, D1, C2, C1);
    Scramble64Undone(k, D1, 31, D2, C1, C2);
  }

  // the two lane updates
  function L1(h: bv64, w: bv64, next: bv64): bv64 { Lane64(h, w, 27, next, 0x52dce729) }
  function L2(h: bv64, w: bv64, next: bv64): bv64 { Lane64(h, w, 31, next, 0x38495ab5) }
  function U1(h: bv64, next: bv64): bv64 { UnLane64(h, 27, next, 0x52dce729) }
  function U2(h: bv64, next: bv64): bv64 { UnLane64(h, 31, next, 0x38495ab5) }

  lemma LanesUndone(h: bv64, w: bv64, next: bv64)
    ensures U1(L1(h, w, next), next) == Xor64(h, w)
    ensures U2(L2(h, w, next), next) == Xor64(h, w)
  {
    hide Lane64, UnLane64, Xor64;
    Lane64Undone(h, w, 27, next, 0x52dce729);
    Lane64Undone(h, w, 31, next, 0x38495ab5);
  }

  lemma LanesRedone(g: bv64, h: bv64, w: bv64, next: bv64)
    ensures Xor64(h, w) == U1(g, next) ==> L1(h, w, next) == g
    ensures Xor64(h, w) == U2(g, next) ==> L2(h, w, next) == g
  {
    hide UnLane64, Xor64, Add64, Times64, Rotl64;
    Lane64Redone(g, U1(g, next), 27, next, 0x52dce729);
    Lane64Redone(g, U2(g, next), 31, next, 0x38495ab5);
  }

  /** One block enters the state; the second lane already sees the new first lane. */
  function Mix(s: Lanes, b: Block): Lanes {
    var h1 := L1(s.h1, S1(b.k1), s.h2);
    Lanes(h1, L2(s.h2, S2(b.k2), h1))
  }

  function UnMix(s: Lanes, b: Block): Lanes {
    var h2 := Xor64(U2(s.h2, s.h1), S2(b.k2));
    Lanes(Xor64(U1(s.h1, h2), S1(b.k1)), h2)
  }

  function SolveMix(s: Lanes, g: Lanes): Block {
    Block(R1(Xor64(s.h1, U1(g.h1, s.h2))), R2(Xor64(s.h2, U2(g.h2, g.h1))))
  }

  lemma MixUndone(s: Lanes, b: Block)
    ensures UnMix(Mix(s, b), b) == s && SolveMix(s, Mix(s, b)) == b
  {
    hide S1, S2, R1, R2, L1, L2, U1, U2, Xor64;
    LanesUndone(s.h1, S1(b.k1), s.h2);
    LanesUndone(s.h2, S2(b.k2), L1(s.h1, S1(b.k1), s.h2));
    Xor64Undone(s.h1, S1(b.k1));
    Xor64Undone(s.h2, S2(b.k2));
    Xor64Undone(S1(b.k1), s.h1);
    Xor64Undone(S2(b.k2), s.h2);
    ScramblesUndone(b.k1);
    ScramblesUndone(b.k2);
  }

  lemma UnMixRedone(g: Lanes, b: Block)
    ensures Mix(UnMix(g, b), b) == g
  {
    hide S1, S2, L1, L2, U1, U2, Xor64;
    var s := UnMix(g, b);
    Xor64Undone(U1(g.h1, s.h2), S1(b.k1));
    Xor64Undone(U2(g.h2, g.h1), S2(b.k2));
    LanesRedone(g.h1, s.h1, S1(b.k1), s.h2);
    LanesRedone(g.h2, s.h2, S2(b.k2), g.h1);
  }

  lemma SolveMixRedone(s: Lanes, g: Lanes)
    ensures Mix(s, SolveMix(s, g)) == g
  {
    hide S1, S2, R1, R2, L1, L2, U1, U2, Xor64;
    ScramblesUndone(Xor64(s.h1, U1(g.h1, s.h2)));
    ScramblesUndone(Xor64(s.h2, U2(g.h2, g.h1)));
    Xor64Undone(U1(g.h1, s.h2), s.h1);
    Xor64Undone(U2(g.h2, g.h1), s.h2);
    LanesRedone(g.h1, s.h1, Xor64(s.h1, U1(g.h1, s.h2)), s.h2);
    LanesRedone(g.h2, s.h2, Xor64(s.h2, U2(g.h2, g.h1)), g.h1);
  }

  /** The block step permutes the 128-bit state for every block, and for every state it is a
      bijection from blocks to states. */
  lemma MixIsReversible()
    ensures KeepsState(Mix) && KeepsBlock(Mix) && Reversible(Mix, UnMix, SolveMix)
  {
    hide Mix, UnMix, SolveMix;
    forall s, s', b | Mix(s, b) == Mix(s', b) ensures s == s' {
      MixUndone(s, b);
      MixUndone(s', b);
    }
    forall s, b, b' | Mix(s, b) == Mix(s, b') ensures b == b' {
      MixUndone(s, b);
      MixUndone(s, b');
    }
    forall s, b ensures Mix(UnMix(s, b), b) == s {
      UnMixRedone(s, b);
    }
    forall s, g ensures Mix(s, SolveMix(s, g)) == g {
      SolveMixRedone(s, g);
    }
  }

  // ---------- tail ----------

  function TailMix(s: Lanes, t: Message): Lanes {
    Lanes(if |t| > 0 then Xor64(s.h1, S1(TailWord64(t, 0))) else s.h1,
          if |t| > 8 then Xor64(s.h2, S2(TailWord64(t, 8))) else s.h2)
  }

  /** For every tail, the state is kept; for every state, the tail is kept. */
  lemma TailMixSeparates(s: Lanes, s': Lanes, t: Message, t': Message)
    requires |t| == |t'| < 16
    requires TailMix(s, t) == TailMix(s', t')
    ensures s == s' <==> t == t'
  {
    hide S1, S2, R1, R2, Xor64, TailWord64;
    if |t| > 0 { XorLane(s.h1, s'.h1, S1(TailWord64(t, 0)), S1(TailWord64(t', 0))); }
    if |t| > 8 { XorLane(s.h2, s'.h2, S2(TailWord64(t, 8)), S2(TailWord64(t', 8))); }
    if s == s' {
      ScramblesUndone(TailWord64(t, 0));
      ScramblesUndone(TailWord64(t', 0));
      ScramblesUndone(TailWord64(t, 8));
      ScramblesUndone(TailWord64(t', 8));
      forall i | 0 <= i < |t| ensures t[i] == t'[i] {
        TailWord64Byte(t, t', i / 8 * 8, i);
      }
    }
  }

  lemma XorLane(h: bv64, h': bv64, w: bv64, w': bv64)
    requires Xor64(h, w) == Xor64(h', w')
    ensures h == h' <==> w == w'
  {
    hide Xor64;
    Xor64Undone(h, w);
    Xor64Undone(h', w');
    Xor64Undone(w, h);
    Xor64Undone(w', h');
  }

  // ---------- finalization ----------

  function Sum(s: Lanes): Lanes {
    var h1 := Add64(s.h1, s.h2);
    Lanes(h1, Add64(s.h2, h1))
  }

  function UnSum(s: Lanes): Lanes {
    var h2 := Sub64(s.h2, s.h1);
    Lanes(Sub64(s.h1, h2), h2)
  }

  function FmixAll(s: Lanes): Lanes {
    Lanes(Fmix64(s.h1), Fmix64(s.h2))
  }

  function UnFmixAll(s: Lanes): Lanes {
    Lanes(UnFmix64(s.h1), UnFmix64(s.h2))
  }

  function XorAll(s: Lanes, n: bv64): Lanes {
    Lanes(Xor64(s.h1, n), Xor64(s.h2, n))
  }

  function Finish(s: Lanes, n: bv64): Lanes {
    Sum(FmixAll(Sum(XorAll(s, n))))
  }

  function UnFinish(s: Lanes, n: bv64): Lanes {
    XorAll(UnSum(UnFmixAll(UnSum(s))), n)
  }

  lemma SumUndone(s: Lanes)
    ensures UnSum(Sum(s)) == s && Sum(UnSum(s)) == s
  {
    hide Add64, Sub64;
    Add64Undone(s.h2, Add64(s.h1, s.h2));
    Add64Undone(s.h1, s.h2);
    Add64Undone(s.h2, s.h1);
    Add64Undone(s.h1, Sub64(s.h2, s.h1));
  }

  /** The finalization permutes the 128-bit state, for every message size. */
  lemma FinishBijection(s: Lanes, n: bv64)
    ensures UnFinish(Finish(s, n), n) == s && Finish(UnFinish(s, n), n) == s
  {
    hide Sum, UnSum, Fmix64, UnFmix64, Xor64;
    LaneWise(s, n);
    SumUndone(XorAll(s, n));
    LaneWise(Sum(XorAll(s, n)), n);
    SumUndone(FmixAll(Sum(XorAll(s, n))));
    SumUndone(s);
    LaneWise(UnSum(s), n);
    SumUndone(UnFmixAll(UnSum(s)));
    LaneWise(UnSum(UnFmixAll(UnSum(s))), n);
  }

  lemma LaneWise(s: Lanes, n: bv64)
    ensures XorAll(XorAll(s, n), n) == s
    ensures UnFmixAll(FmixAll(s)) == s && FmixAll(UnFmixAll(s)) == s
  {
    hide Fmix64, UnFmix64, Xor64;
    Xor64Undone(s.h1, n);
    Xor64Undone(s.h2, n);
    Fmix64Bijection(s.h1);
    Fmix64Bijection(s.h2);
  }

  // ---------- the hash ----------

  function BlockAt(m: Message, at: nat): Block
    requires at + 16 <= |m|
  {
    Block(Word64At(m, at), Word64At(m, at + 8))
  }

  function Blocks(m: Message): (b: seq<Block>)
    ensures |b| == |m| / 16
  {
    seq(|m| / 16, i requires 0 <= i < |m| / 16 => BlockAt(m, 16 * i))
  }

  function Body(m: Message): Lanes {
    Fold(Mix, SEED, Blocks(m))
  }

  /** `size` as it is xored into the lanes. */
  function Size(m: Message): bv64
    requires |m| < 0x8000_0000
  {
    |m| as bv64
  }

  function Hash(m: Message): Lanes
    requires |m| < 0x8000_0000
  {
    Finish(TailMix(Body(m), Tail(m, 16)), Size(m))
  }

  /** `p[i]` for a pointer to the 8-byte words of the message. */
  function GetBlock(m: Message, i: nat): bv64
    requires 8 * i + 8 <= |m|
  {
    Word64At(m, 8 * i)
  }

  method AbsorbBlock(h1: bv64, h2: bv64, b: Block) returns (g1: bv64, g2: bv64)
    ensures Lanes(g1, g2) == Mix(Lanes(h1, h2), b)
  {
    hide Times64, Rotl64, Xor64, Add64;
    var k1, k2 := b.k1, b.k2;
    k1 := Times64(k1, C1); k1 := Rotl64(k1, 31); k1 := Times64(k1, C2);
    g1 := Xor64(h1, k1);
    g1 := Rotl64(g1, 27); g1 := Add64(g1, h2); g1 := Add64(Times64(g1, 5), 0x52dce729);

    k2 := Times64(k2, C2); k2 := Rotl64(k2, 33); k2 := Times64(k2, C1);
    g2 := Xor64(h2, k2);
    g2 := Rotl64(g2, 31); g2 := Add64(g2, g1); g2 := Add64(Times64(g2, 5), 0x38495ab5);
  }

  method AbsorbBlocks(message: Message) returns (h1: bv64, h2: bv64)
    ensures Lanes(h1, h2) == Body(message)
  {
    hide Mix, Word64At;
    var nblocks := |message| / 16;
    h1, h2 := 42, 42;
    for i := 0 to nblocks
      invariant Lanes(h1, h2) == Fold(Mix, SEED, Blocks(message)[..i])
    {
      ghost var done := Blocks(message)[..i + 1];
      assert done[..i] == Blocks(message)[..i];
      var k1 := GetBlock(message, i * 2 + 0);
      var k2 := GetBlock(message, i * 2 + 1);
      h1, h2 := AbsorbBlock(h1, h2, Block(k1, k2));
    }
    assert Blocks(message)[..nblocks] == Blocks(message);
  }

  /** The fall-through `switch (size & 15)`. */
  method AbsorbTail(tail: Message, h1: bv64, h2: bv64) returns (g1: bv64, g2: bv64)
    requires |tail| < 16
    ensures Lanes(g1, g2) == TailMix(Lanes(h1, h2), tail)
  {
    hide Times64, Rotl64, Xor64, Place64, TailWord64;
    var k1: bv64, k2: bv64 := 0, 0;
    g1, g2 := h1, h2;
    Gather64IsTailWord(tail, 8);
    if |tail| >= 15 { k2 := Xor64(k2, Place64(tail[14], 48)); }
    if |tail| >= 14 { k2 := Xor64(k2, Place64(tail[13], 40)); }
    if |tail| >= 13 { k2 := Xor64(k2, Place64(tail[12], 32)); }
    if |tail| >= 12 { k2 := Xor64(k2, Place64(tail[11], 24)); }
    if |tail| >= 11 { k2 := Xor64(k2, Place64(tail[10], 16)); }
    if |tail| >= 10 { k2 := Xor64(k2, Place64(tail[9], 8)); }
    if |tail| >= 9 {
      k2 := Xor64(k2, Place64(tail[8], 0));
      k2 := Times64(k2, C2); k2 := Rotl64(k2, 33); k2 := Times64(k2, C1);
      g2 := Xor64(g2, k2);
    }
    Gather64IsTailWord(tail, 0);
    if |tail| >= 8 { k1 := Xor64(k1, Place64(tail[7], 56)); }
    if |tail| >= 7 { k1 := Xor64(k1, Place64(tail[6], 48)); }
    if |tail| >= 6 { k1 := Xor64(k1, Place64(tail[5], 40)); }
    if |tail| >= 5 { k1 := Xor64(k1, Place64(tail[4], 32)); }
    if |tail| >= 4 { k1 := Xor64(k1, Place64(tail[3], 24)); }
    if |tail| >= 3 { k1 := Xor64(k1, Place64(tail[2], 16)); }
    if |tail| >= 2 { k1 := Xor64(k1, Place64(tail[1], 8)); }
    if |tail| >= 1 {
      k1 := Xor64(k1, Place64(tail[0], 0));
      k1 := Times64(k1, C1); k1 := Rotl64(k1, 31); k1 := Times64(k1, C2);
      g1 := Xor64(g1, k1);
    }
  }

  method X64_128(message: Message) returns (h1: bv64, h2: bv64)
    requires |message| < 0x8000_0000
    ensures Lanes(h1, h2) == Hash(message)
  {
    hide Xor64, Add64, Fmix64, Body, TailMix;
    h1, h2 := AbsorbBlocks(message);
    h1, h2 := AbsorbTail(message[|message| / 16 * 16..], h1, h2);
    var size := |message| as bv64;
    h1 := Xor64(h1, size); h2 := Xor64(h2, size);

    h1 := Add64(h1, h2); h2 := Add64(h2, h1);

    h1 := Fmix64(h1); h2 := Fmix64(h2);

    h1 := Add64(h1, h2); h2 := Add64(h2, h1);
  }

  // ---------- no collisions within one unit ----------

  lemma BlocksDiffer(m: Message, m': Message, j: nat)
    requires DifferInBlock(m, m', 16, j)
    ensures DifferOnlyAt(Blocks(m), Blocks(m'), j)
  {
    hide Word64At;
    forall i | 0 <= i < |m| / 16 && i != j ensures BlockAt(m, 16 * i) == BlockAt(m', 16 * i) {
      forall p | 16 * i <= p < 16 * i + 16 ensures m[p] == m'[p] {
        AgreeOutside(m, m', 16, j, p);
      }
      SameWords(m, m', 16 * i);
    }
    DisagreeInside(m, m', 16, j);
    if BlockAt(m, 16 * j) == BlockAt(m', 16 * j) {
      SameBlock(m, m', 16 * j);
    }
  }

  lemma SameWords(m: Message, m': Message, at: nat)
    requires |m| == |m'| && at + 16 <= |m|
    requires forall p | at <= p < at + 16 :: m[p] == m'[p]
    ensures BlockAt(m, at) == BlockAt(m', at)
  {
    hide Word64;
  }

  lemma SameBlock(m: Message, m': Message, at: nat)
    requires |m| == |m'| && at + 16 <= |m|
    requires BlockAt(m, at) == BlockAt(m', at)
    ensures m[at..at + 16] == m'[at..at + 16]
  {
    hide Word64At;
    Word64Separates(m, m', at);
    Word64Separates(m, m', at + 8);
    forall p | at <= p < at + 16 ensures m[p] == m'[p] {
      var b := at + (p - at) / 8 * 8;
      assert m[b..b + 8][p - b] == m'[b..b + 8][p - b];
    }
  }

  lemma SameBlocks(m: Message, m': Message)
    requires |m| == |m'| && m[..|m| / 16 * 16] == m'[..|m| / 16 * 16]
    ensures Blocks(m) == Blocks(m')
  {
    hide Word64At;
    forall i | 0 <= i < |m| / 16 ensures BlockAt(m, 16 * i) == BlockAt(m', 16 * i) {
      forall p | 16 * i <= p < 16 * i + 16 ensures m[p] == m'[p] {
        assert m[p] == m[..|m| / 16 * 16][p];
      }
      SameWords(m, m', 16 * i);
    }
  }

  /** Only the tail differs: the bodies agree and the tails do not. */
  lemma TailCase(m: Message, m': Message)
    requires DifferInTail(m, m', 16)
    ensures Body(m) == Body(m') && Tail(m, 16) != Tail(m', 16)
  {
    hide Mix, Fold, BlockAt, Blocks;
    SameBlocks(m, m');
    assert m == m[..|m| / 16 * 16] + Tail(m, 16);
    assert m' == m'[..|m| / 16 * 16] + Tail(m', 16);
  }

  /** Only one block differs: the tails agree and the bodies do not. */
  lemma BlockCase(m: Message, m': Message, j: nat)
    requires DifferInBlock(m, m', 16, j)
    ensures Body(m) != Body(m') && Tail(m, 16) == Tail(m', 16)
  {
    hide Mix, Fold, BlockAt, Blocks;
    BlocksDiffer(m, m', j);
    MixIsReversible();
    FoldSeparates(Mix, SEED, Blocks(m), Blocks(m'), j);
  }

  /** States or tails that differ, but not both, end in different hashes. */
  lemma FinishSeparates(s: Lanes, s': Lanes, t: Message, t': Message, n: bv64)
    requires |t| == |t'| < 16 && (s == s') != (t == t')
    ensures Finish(TailMix(s, t), n) != Finish(TailMix(s', t'), n)
  {
    hide Finish, UnFinish, TailMix;
    FinishBijection(TailMix(s, t), n);
    FinishBijection(TailMix(s', t'), n);
    if TailMix(s, t) == TailMix(s', t') {
      TailMixSeparates(s, s', t, t');
    }
  }

  /** Messages of one length that differ only inside one aligned 16-byte block, or only in the tail,
      never share a 128-bit hash. */
  lemma NoCollision(m: Message, m': Message)
    requires |m| < 0x8000_0000
    requires DifferInOneUnit(m, m', 16)
    ensures Hash(m) != Hash(m')
  {
    hide Finish, TailMix, Body;
    if DifferInTail(m, m', 16) {
      TailCase(m, m');
    } else {
      var j: nat :| DifferInBlock(m, m', 16, j);
      BlockCase(m, m', j);
    }
    assert Size(m) == Size(m');
    hide Size;
    FinishSeparates(Body(m), Body(m'), Tail(m, 16), Tail(m', 16), Size(m));
  }
}
