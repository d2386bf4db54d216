/** MurmurHash3_x86_128: four 32-bit lanes, 16-byte blocks. */
module MurmurX86_128 {
  import opened MurmurWords
  import opened Messages
  import opened BlockFold

  datatype Lanes = Lanes(h1: bv32, h2: bv32, h3: bv32, h4: bv32)
  datatype Block = Block(k1: bv32, k2: bv32, k3: bv32, k4: bv32)

  const SEED := Lanes(42, 42, 42, 42)
  const C1: bv32 := 0x239b961b
  const C2: bv32 := 0xab0e9789
  const C3: bv32 := 0x38b34ae5
  const C4: bv32 := 0xa1e38b93
  // their inverses modulo 2^32
  const D1: bv32 := 0x89c95413
  const D2: bv32 := 0xdf130eb9
  const D3: bv32 := 0x747862ed
  const D4: bv32 := 0x58d64a9b

  // the four block-word scramblings and their inverses
  function S1(k: bv32): bv32 { Scramble32(k, C1, 15, C2) }
  function S2(k: bv32): bv32 { Scramble32(k, C2, 16, C3) }
  function S3(k: bv32): bv32 { Scramble32(k, C3, 17, C4) }
  function S4(k: bv32): bv32 { Scramble32(k, C4, 18, C1) }
  function R1(w: bv32): bv32 { Scramble32(w, D2, 17, D1) }
  function R2(w: bv32): bv32 { Scramble32(w, D3, 16, D2) }
  function R3(w: bv32): bv32 { Scramble32(w, D4, 15, D3) }
  function R4(w: bv32): bv32 { Scramble32(w, D1, 14, D4) }

  lemma InverseConstants()
    ensures Times32(C1, D1) == 1 && Times32(D1, C1) == 1
    ensures Times32(C2, D2) == 1 && Times32(D2, C2) == 1
    ensures Times32(C3, D3) == 1 && Times32(D3, C3) == 1
    ensures Times32(C4, D4) == 1 && Times32(D4, C4) == 1
  {}

  lemma ScramblesUndone(k: bv32)
    ensures R1(S1(k)) == k && S1(R1(k)) == k
    ensures R2(S2(k)) == k && S2(R2(k)) == k
    ensures R3(S3(k)) == k && S3(R3(k)) == k
    ensures R4(S4(k)) == k && S4(R4(k)) == k
  {
    InverseConstants();
    hide Scramble32, Times32;
    Scramble32Undone(k, C1, 15, C2, D1, D2);
    Scramble32Undone(k, C2, 16, C3, D2, D3);
    Scramble32Undone(k, C3, 17, C4, D3, D4);
    Scramble32Undone(k, C4, 18, C1, D4, D1);
    Scramble32Undone(k, D2, 17, D1, C2, C1);
    Scramble32Undone(k, D3, 16, D2, C3, C2);
    Scramble32Undone(k, D4, 15, D3, C4, C3);
    Scramble32Undone(k, D1, 14, D4, C1, C4);
  }

  // the four lane updates
  function L1(h: bv32, w: bv32, next: bv32): bv32 { Lane32(h, w, 19, next, 0x561ccd1b) }
  function L2(h: bv32, w: bv32, next: bv32): bv32 { Lane32(h, w, 17, next, 0x0bcaa747) }
  function L3(h: bv32, w: bv32, next: bv32): bv32 { Lane32(h, w, 15, next, 0x96cd1c35) }
  function L4(h: bv32, w: bv32, next: bv32): bv32 { Lane32(h, w, 13, next, 0x32ac3b17) }
  function U1(h: bv32, next: bv32): bv32 { UnLane32(h, 19, next, 0x561ccd1b) }
  function U2(h: bv32, next: bv32): bv32 { UnLane32(h, 17, next, 0x0bcaa747) }
  function U3(h: bv32, next: bv32): bv32 { UnLane32(h, 15, next, 0x96cd1c35) }
  function U4(h: bv32, next: bv32): bv32 { UnLane32(h, 13, next, 0x32ac3b17) }

  lemma LanesUndone(h: bv32, w: bv32, next: bv32)
    ensures U1(L1(h, w, next), next) == Xor32(h, w)
    ensures U2(L2(h, w, next), next) == Xor32(h, w)
    ensures U3(L3(h, w, next), next) == Xor32(h, w)
    ensures U4(L4(h, w, next), next) == Xor32(h, w)
  {
    hide Lane32, UnLane32, Xor32;
    Lane32Undone(h, w, 19, next, 0x561ccd1b);
    Lane32Undone(h, w, 17, next, 0x0bcaa747);
    Lane32Undone(h, w, 15, next, 0x96cd1c35);
    Lane32Undone(h, w, 13, next, 0x32ac3b17);
  }

  lemma LanesRedone(g: bv32, h: bv32, w: bv32, next: bv32)
    ensures Xor32(h, w) == U1(g, next) ==> L1(h, w, next) == g
    ensures Xor32(h, w) == U2(g, next) ==> L2(h, w, next) == g
    ensures Xor32(h, w) == U3(g, next) ==> L3(h, w, next) == g
    ensures Xor32(h, w) == U4(g, next) ==> L4(h, w, next) == g
  {
    hide UnLane32, Xor32, Add32, Times32, Rotl32;
    Lane32Redone(g, U1(g, next), 19, next, 0x561ccd1b);
    Lane32Redone(g, U2(g, next), 17, next, 0x0bcaa747);
    Lane32Redone(g, U3(g, next), 15, next, 0x96cd1c35);
    Lane32Redone(g, U4(g, next), 13, next, 0x32ac3b17);
  }

  /** One block enters the state; the last lane already sees the new first lane. */
  function Mix(s: Lanes, b: Block): Lanes {
    var h1 := L1(s.h1, S1(b.k1), s.h2);
    var h2 := L2(s.h2, S2(b.k2), s.h3);
    var h3 := L3(s.h3, S3(b.k3), s.h4);
    Lanes(h1, h2, h3, L4(s.h4, S4(b.k4), h1))
  }

  function UnMix(s: Lanes, b: Block): Lanes {
    var h4 := Xor32(U4(s.h4, s.h1), S4(b.k4));
    var h3 := Xor32(U3(s.h3, h4), S3(b.k3));
    var h2 := Xor32(U2(s.h2, h3), S2(b.k2));
    Lanes(Xor32(U1(s.h1, h2), S1(b.k1)), h2, h3, h4)
  }

  function SolveMix(s: Lanes, g: Lanes): Block {
    Block(R1(Xor32(s.h1, U1(g.h1, s.h2))), R2(Xor32(s.h2, U2(g.h2, s.h3))),
          R3(Xor32(s.h3, U3(g.h3, s.h4))), R4(Xor32(s.h4, U4(g.h4, g.h1))))
  }

  lemma MixUndone(s: Lanes, b: Block)
    ensures UnMix(Mix(s, b), b) == s && SolveMix(s, Mix(s, b)) == b
  {
    hide S1, S2, S3, S4, R1, R2, R3, R4, L1, L2, L3, L4, U1, U2, U3, U4, Xor32;
    LanesUndone(s.h1, S1(b.k1), s.h2);
    LanesUndone(s.h2, S2(b.k2), s.h3);
    LanesUndone(s.h3, S3(b.k3), s.h4);
    LanesUndone(s.h4, S4(b.k4), L1(s.h1, S1(b.k1), s.h2));
    Xor32Undone(s.h1, S1(b.k1));
    Xor32Undone(s.h2, S2(b.k2));
    Xor32Undone(s.h3, S3(b.k3));
    Xor32Undone(s.h4, S4(b.k4));
    Xor32Undone(S1(b.k1), s.h1);
    Xor32Undone(S2(b.k2), s.h2);
    Xor32Undone(S3(b.k3), s.h3);
    Xor32Undone(S4(b.k4), s.h4);
    ScramblesUndone(b.k1);
    ScramblesUndone(b.k2);
    ScramblesUndone(b.k3);
    ScramblesUndone(b.k4);
  }

  lemma UnMixRedone(g: Lanes, b: Block)
    ensures Mix(UnMix(g, b), b) == g
  {
    hide S1, S2, S3, S4, L1, L2, L3, L4, U1, U2, U3, U4, Xor32;
    var s := UnMix(g, b);
    Xor32Undone(U1(g.h1, s.h2), S1(b.k1));
    Xor32Undone(U2(g.h2, s.h3), S2(b.k2));
    Xor32Undone(U3(g.h3, s.h4), S3(b.k3));
    Xor32Undone(U4(g.h4, g.h1), S4(b.k4));
    LanesRedone(g.h1, s.h1, S1(b.k1), s.h2);
    LanesRedone(g.h2, s.h2, S2(b.k2), s.h3);
    LanesRedone(g.h3, s.h3, S3(b.k3), s.h4);
    LanesRedone(g.h4, s.h4, S4(b.k4), g.h1);
  }

  lemma SolveMixRedone(s: Lanes, g: Lanes)
    ensures Mix(s, SolveMix(s, g)) == g
  {
    hide S1, S2, S3, S4, R1, R2, R3, R4, L1, L2, L3, L4, U1, U2, U3, U4, Xor32;
    ScramblesUndone(Xor32(s.h1, U1(g.h1, s.h2)));
    ScramblesUndone(Xor32(s.h2, U2(g.h2, s.h3)));
    ScramblesUndone(Xor32(s.h3, U3(g.h3, s.h4)));
    ScramblesUndone(Xor32(s.h4, U4(g.h4, g.h1)));
    Xor32Undone(U1(g.h1, s.h2), s.h1);
    Xor32Undone(U2(g.h2, s.h3), s.h2);
    Xor32Undone(U3(g.h3, s.h4), s.h3);
    Xor32Undone(U4(g.h4, g.h1), s.h4);
    LanesRedone(g.h1, s.h1, Xor32(s.h1, U1(g.h1, s.h2)), s.h2);
    LanesRedone(g.h2, s.h2, Xor32(s.h2, U2(g.h2, s.h3)), s.h3);
    LanesRedone(g.h3, s.h3, Xor32(s.h3, U3(g.h3, s.h4)), s.h4);
    LanesRedone(g.h4, s.h4, Xor32(s.h4, U4(g.h4, g.h1)), g.h1);
  }

  /** The block step permutes the 128-bit state for every block, and for every state it is a
      bijection from blocks to states. */
  lemma MixIsReversible()
    ensures KeepsState(Mix) && KeepsBlock(Mix) && Reversible(Mix, UnMix, SolveMix)
  {
    hide Mix, UnMix, SolveMix;
    forall s, s', b | Mix(s, b) == Mix(s', b) ensures s == s' {
      MixUndone(s, b);
      MixUndone(s', b);
    }
    forall s, b, b' | Mix(s, b) == Mix(s, b') ensures b == b' {
      MixUndone(s, b);
      MixUndone(s, b');
    }
    forall s, b ensures Mix(UnMix(s, b), b) == s {
      UnMixRedone(s, b);
    }
    forall s, g ensures Mix(s, SolveMix(s, g)) == g {
      SolveMixRedone(s, g);
    }
  }

  // ---------- tail ----------

  function TailMix(s: Lanes, t: Message): Lanes {
    Lanes(if |t| > 0 then Xor32(s.h1, S1(TailWord32(t, 0))) else s.h1,
          if |t| > 4 then Xor32(s.h2, S2(TailWord32(t, 4))) else s.h2,
          if |t| > 8 then Xor32(s.h3, S3(TailWord32(t, 8))) else s.h3,
          if |t| > 12 then Xor32(s.h4, S4(TailWord32(t, 12))) else s.h4)
  }

  /** For every tail, the state is kept; for every state, the tail is kept. */
  lemma TailMixSeparates(s: Lanes, s': Lanes, t: Message, t': Message)
    requires |t| == |t'| < 16
    requires TailMix(s, t) == TailMix(s', t')
    ensures s == s' <==> t == t'
  {
    hide S1, S2, S3, S4, R1, R2, R3, R4, Xor32, TailWord32;
    if |t| > 0 { XorLane(s.h1, s'.h1, S1(TailWord32(t, 0)), S1(TailWord32(t', 0))); }
    if |t| > 4 { XorLane(s.h2, s'.h2, S2(TailWord32(t, 4)), S2(TailWord32(t', 4))); }
    if |t| > 8 { XorLane(s.h3, s'.h3, S3(TailWord32(t, 8)), S3(TailWord32(t', 8))); }
    if |t| > 12 { XorLane(s.h4, s'.h4, S4(TailWord32(t, 12)), S4(TailWord32(t', 12))); }
    if s == s' {
      ScramblesUndone(TailWord32(t, 0));
      ScramblesUndone(TailWord32(t', 0));
      ScramblesUndone(TailWord32(t, 4));
      ScramblesUndone(TailWord32(t', 4));
      ScramblesUndone(TailWord32(t, 8));
      ScramblesUndone(TailWord32(t', 8));
      ScramblesUndone(TailWord32(t, 12));
      ScramblesUndone(TailWord32(t', 12));
      TailWordsSeparate(t, t');
    }
  }

  lemma XorLane(h: bv32, h': bv32, w: bv32, w': bv32)
    requires Xor32(h, w) == Xor32(h', w')
    ensures h == h' <==> w == w'
  {
    hide Xor32;
    Xor32Undone(h, w);
    Xor32Undone(h', w');
    Xor32Undone(w, h);
    Xor32Undone(w', h');
  }

  lemma TailWordsSeparate(t: Message, t': Message)
    requires |t| == |t'| < 16
    requires |t| > 0 ==> TailWord32(t, 0) == TailWord32(t', 0)
    requires |t| > 4 ==> TailWord32(t, 4) == TailWord32(t', 4)
    requires |t| > 8 ==> TailWord32(t, 8) == TailWord32(t', 8)
    requires |t| > 12 ==> TailWord32(t, 12) == TailWord32(t', 12)
    ensures t == t'
  {
    hide TailWord32;
    forall i | 0 <= i < |t| ensures t[i] == t'[i] {
      TailWord32Byte(t, t', i / 4 * 4, i);
    }
  }

  // ---------- finalization ----------

  function Sum(s: Lanes): Lanes {
    var h1 := Add32(Add32(Add32(s.h1, s.h2), s.h3), s.h4);
    Lanes(h1, Add32(s.h2, h1), Add32(s.h3, h1), Add32(s.h4, h1))
  }

  function UnSum(s: Lanes): Lanes {
    var h2, h3, h4 := Sub32(s.h2, s.h1), Sub32(s.h3, s.h1), Sub32(s.h4, s.h1);
    Lanes(Sub32(Sub32(Sub32(s.h1, h4), h3), h2), h2, h3, h4)
  }

  function FmixAll(s: Lanes): Lanes {
    Lanes(Fmix32(s.h1), Fmix32(s.h2), Fmix32(s.h3), Fmix32(s.h4))
  }

  function UnFmixAll(s: Lanes): Lanes {
    Lanes(UnFmix32(s.h1), UnFmix32(s.h2), UnFmix32(s.h3), UnFmix32(s.h4))
  }

  function XorAll(s: Lanes, n: bv32): Lanes {
    Lanes(Xor32(s.h1, n), Xor32(s.h2, n), Xor32(s.h3, n), Xor32(s.h4, n))
  }

  function Finish(s: Lanes, n: bv32): Lanes {
    Sum(FmixAll(Sum(XorAll(s, n))))
  }

  function UnFinish(s: Lanes, n: bv32): Lanes {
    XorAll(UnSum(UnFmixAll(UnSum(s))), n)
  }

  lemma SumUndone(s: Lanes)
    ensures UnSum(Sum(s)) == s && Sum(UnSum(s)) == s
  {
    hide Add32, Sub32;
    SumForward(s);
    SumBack(s);
  }

  lemma SumForward(s: Lanes)
    ensures UnSum(Sum(s)) == s
  {
    hide Add32, Sub32;
    var h1 := Sum(s).h1;
    Add32Undone(s.h2, h1);
    Add32Undone(s.h3, h1);
    Add32Undone(s.h4, h1);
    Add32Undone(Add32(Add32(s.h1, s.h2), s.h3), s.h4);
    Add32Undone(Add32(s.h1, s.h2), s.h3);
    Add32Undone(s.h1, s.h2);
  }

  lemma SumBack(s: Lanes)
    ensures Sum(UnSum(s)) == s
  {
    hide Add32, Sub32;
    var h2, h3, h4 := Sub32(s.h2, s.h1), Sub32(s.h3, s.h1), Sub32(s.h4, s.h1);
    Add32Undone(s.h2, s.h1);
    Add32Undone(s.h3, s.h1);
    Add32Undone(s.h4, s.h1);
    Add32Undone(s.h1, h4);
    Add32Undone(Sub32(s.h1, h4), h3);
    Add32Undone(Sub32(Sub32(s.h1, h4), h3), h2);
  }

  /** The finalization permutes the 128-bit state, for every message size. */
  lemma FinishBijection(s: Lanes, n: bv32)
    ensures UnFinish(Finish(s, n), n) == s && Finish(UnFinish(s, n), n) == s
  {
    hide Sum, UnSum, Fmix32, UnFmix32, Xor32;
    LaneWise(s, n);
    SumUndone(XorAll(s, n));
    LaneWise(Sum(XorAll(s, n)), n);
    SumUndone(FmixAll(Sum(XorAll(s, n))));
    SumUndone(s);
    LaneWise(UnSum(s), n);
    SumUndone(UnFmixAll(UnSum(s)));
    LaneWise(UnSum(UnFmixAll(UnSum(s))), n);
  }

  lemma LaneWise(s: Lanes, n: bv32)
    ensures XorAll(XorAll(s, n), n) == s
    ensures UnFmixAll(FmixAll(s)) == s && FmixAll(UnFmixAll(s)) == s
  {
    hide Fmix32, UnFmix32, Xor32;
    Xor32Undone(s.h1, n);
    Xor32Undone(s.h2, n);
    Xor32Undone(s.h3, n);
    Xor32Undone(s.h4, n);
    Fmix32Bijection(s.h1);
    Fmix32Bijection(s.h2);
    Fmix32Bijection(s.h3);
    Fmix32Bijection(s.h4);
  }

  // ---------- the hash ----------

  function BlockAt(m: Message, at: nat): Block
    requires at + 16 <= |m|
  {
    Block(Word32At(m, at), Word32At(m, at + 4), Word32At(m, at + 8), Word32At(m, at + 12))
  }

  function Blocks(m: Message): (b: seq<Block>)
    ensures |b| == |m| / 16
  {
    seq(|m| / 16, i requires 0 <= i < |m| / 16 => BlockAt(m, 16 * i))
  }

  function Body(m: Message): Lanes {
    Fold(Mix, SEED, Blocks(m))
  }

  /** `size` as it is xored into the lanes. */
  function Size(m: Message): bv32
    requires |m| < 0x8000_0000
  {
    |m| as bv32
  }

  function Hash(m: Message): Lanes
    requires |m| < 0x8000_0000
  {
    Finish(TailMix(Body(m), Tail(m, 16)), Size(m))
  }

  /** `p[i]` for a pointer to 4-byte words that starts `base` bytes into the message. */
  function GetBlock(m: Message, base: nat, i: int): bv32
    requires 0 <= base + 4 * i && base + 4 * i + 4 <= |m|
  {
    Word32At(m, base + 4 * i)
  }

  method AbsorbBlock(h1: bv32, h2: bv32, h3: bv32, h4: bv32, b: Block)
    returns (g1: bv32, g2: bv32, g3: bv32, g4: bv32)
    ensures Lanes(g1, g2, g3, g4) == Mix(Lanes(h1, h2, h3, h4), b)
  {
    hide Times32, Rotl32, Xor32, Add32;
    var k1, k2, k3, k4 := b.k1, b.k2, b.k3, b.k4;
    k1 := Times32(k1, C1); k1 := Rotl32(k1, 15); k1 := Times32(k1, C2);
    g1 := Xor32(h1, k1);
    g1 := Rotl32(g1, 19); g1 := Add32(g1, h2); g1 := Add32(Times32(g1, 5), 0x561ccd1b);

    k2 := Times32(k2, C2); k2 := Rotl32(k2, 16); k2 := Times32(k2, C3);
    g2 := Xor32(h2, k2);
    g2 := Rotl32(g2, 17); g2 := Add32(g2, h3); g2 := Add32(Times32(g2, 5), 0x0bcaa747);

    k3 := Times32(k3, C3); k3 := Rotl32(k3, 17); k3 := Times32(k3, C4);
    g3 := Xor32(h3, k3);
    g3 := Rotl32(g3, 15); g3 := Add32(g3, h4); g3 := Add32(Times32(g3, 5), 0x96cd1c35);

    k4 := Times32(k4, C4); k4 := Rotl32(k4, 18); k4 := Times32(k4, C1);
    g4 := Xor32(h4, k4);
    g4 := Rotl32(g4, 13); g4 := Add32(g4, g1); g4 := Add32(Times32(g4, 5), 0x32ac3b17);
  }

  method AbsorbBlocks(message: Message) returns (h1: bv32, h2: bv32, h3: bv32, h4: bv32)
    ensures Lanes(h1, h2, h3, h4) == Body(message)
  {
    hide Mix, Word32At;
    var nblocks := |message| / 16;
    h1, h2, h3, h4 := 42, 42, 42, 42;
    var i := -nblocks;
    while i != 0
      invariant -nblocks <= i <= 0
      invariant Lanes(h1, h2, h3, h4) == Fold(Mix, SEED, Blocks(message)[..nblocks + i])
    {
      ghost var done := Blocks(message)[..nblocks + i + 1];
      assert done[..nblocks + i] == Blocks(message)[..nblocks + i];
      var k1 := GetBlock(message, nblocks * 16, i * 4 + 0);
      var k2 := GetBlock(message, nblocks * 16, i * 4 + 1);
      var k3 := GetBlock(message, nblocks * 16, i * 4 + 2);
      var k4 := GetBlock(message, nblocks * 16, i * 4 + 3);
      h1, h2, h3, h4 := AbsorbBlock(h1, h2, h3, h4, Block(k1, k2, k3, k4));
      i := i + 1;
    }
    assert Blocks(message)[..nblocks] == Blocks(message);
  }

  /** The fall-through `switch (size & 15)`. */
  method AbsorbTail(tail: Message, h1: bv32, h2: bv32, h3: bv32, h4: bv32)
    returns (g1: bv32, g2: bv32, g3: bv32, g4: bv32)
    requires |tail| < 16
    ensures Lanes(g1, g2, g3, g4) == TailMix(Lanes(h1, h2, h3, h4), tail)
  {
    hide Times32, Rotl32, Xor32, Place32, TailWord32;
    var k1: bv32, k2: bv32, k3: bv32, k4: bv32 := 0, 0, 0, 0;
    g1, g2, g3, g4 := h1, h2, h3, h4;
    Gather32IsTailWord(tail, 12);
    if |tail| >= 15 { k4 := Xor32(k4, Place32(tail[14], 16)); }
    if |tail| >= 14 { k4 := Xor32(k4, Place32(tail[13], 8)); }
    if |tail| >= 13 {
      k4 := Xor32(k4, Place32(tail[12], 0));
      k4 := Times32(k4, C4); k4 := Rotl32(k4, 18); k4 := Times32(k4, C1);
      g4 := Xor32(g4, k4);
    }
    Gather32IsTailWord(tail, 8);
    if |tail| >= 12 { k3 := Xor32(k3, Place32(tail[11], 24)); }
    if |tail| >= 11 { k3 := Xor32(k3, Place32(tail[10], 16)); }
    if |tail| >= 10 { k3 := Xor32(k3, Place32(tail[9], 8)); }
    if |tail| >= 9 {
      k3 := Xor32(k3, Place32(tail[8], 0));
      k3 := Times32(k3, C3); k3 := Rotl32(k3, 17); k3 := Times32(k3, C4);
      g3 := Xor32(g3, k3);
    }
    Gather32IsTailWord(tail, 4);
    if |tail| >= 8 { k2 := Xor32(k2, Place32(tail[7], 24)); }
    if |tail| >= 7 { k2 := Xor32(k2, Place32(tail[6], 16)); }
    if |tail| >= 6 { k2 := Xor32(k2, Place32(tail[5], 8)); }
    if |tail| >= 5 {
      k2 := Xor32(k2, Place32(tail[4], 0));
      k2 := Times32(k2, C2); k2 := Rotl32(k2, 16); k2 := Times32(k2, C3);
      g2 := Xor32(g2, k2);
    }
    Gather32IsTailWord(tail, 0);
    if |tail| >= 4 { k1 := Xor32(k1, Place32(tail[3], 24)); }
    if |tail| >= 3 { k1 := Xor32(k1, Place32(tail[2], 16)); }
    if |tail| >= 2 { k1 := Xor32(k1, Place32(tail[1], 8)); }
    if |tail| >= 1 {
      k1 := Xor32(k1, Place32(tail[0], 0));
      k1 := Times32(k1, C1); k1 := Rotl32(k1, 15); k1 := Times32(k1, C2);
      g1 := Xor32(g1, k1);
    }
  }

  method X86_128(message: Message) returns (h1: bv32, h2: bv32, h3: bv32, h4: bv32)
    requires |message| < 0x8000_0000
    ensures Lanes(h1, h2, h3, h4) == Hash(message)
  {
    hide Xor32, Add32, Fmix32, Body, TailMix;
    h1, h2, h3, h4 := AbsorbBlocks(message);
    h1, h2, h3, h4 := AbsorbTail(message[|message| / 16 * 16..], h1, h2, h3, h4);
    var size := |message| as bv32;
    h1 := Xor32(h1, size); h2 := Xor32(h2, size); h3 := Xor32(h3, size); h4 := Xor32(h4, size);

    h1 := Add32(h1, h2); h1 := Add32(h1, h3); h1 := Add32(h1, h4);
    h2 := Add32(h2, h1); h3 := Add32(h3, h1); h4 := Add32(h4, h1);

    h1 := Fmix32(h1); h2 := Fmix32(h2); h3 := Fmix32(h3); h4 := Fmix32(h4);

    h1 := Add32(h1, h2); h1 := Add32(h1, h3); h1 := Add32(h1, h4);
    h2 := Add32(h2, h1); h3 := Add32(h3, h1); h4 := Add32(h4, h1);
  }

  // ---------- no collisions within one unit ----------

  lemma BlocksDiffer(m: Message, m': Message, j: nat)
    requires DifferInBlock(m, m', 16, j)
    ensures DifferOnlyAt(Blocks(m), Blocks(m'), j)
  {
    hide Word32At;
    forall i | 0 <= i < |m| / 16 && i != j ensures BlockAt(m, 16 * i) == BlockAt(m', 16 * i) {
      forall p | 16 * i <= p < 16 * i + 16 ensures m[p] == m'[p] {
        AgreeOutside(m, m', 16, j, p);
      }
      SameWords(m, m', 16 * i);
    }
    DisagreeInside(m, m', 16, j);
    if BlockAt(m, 16 * j) == BlockAt(m', 16 * j) {
      SameBlock(m, m', 16 * j);
    }
  }

  lemma SameWords(m: Message, m': Message, at: nat)
    requires |m| == |m'| && at + 16 <= |m|
    requires forall p | at <= p < at + 16 :: m[p] == m'[p]
    ensures BlockAt(m, at) == BlockAt(m', at)
  {
    hide Word32;
  }

  lemma SameBlock(m: Message, m': Message, at: nat)
    requires |m| == |m'| && at + 16 <= |m|
    requires BlockAt(m, at) == BlockAt(m', at)
    ensures m[at..at + 16] == m'[at..at + 16]
  {
    hide Word32At;
    Word32Separates(m, m', at);
    Word32Separates(m, m', at + 4);
    Word32Separates(m, m', at + 8);
    Word32Separates(m, m', at + 12);
    forall p | at <= p < at + 16 ensures m[p] == m'[p] {
      var b := at + (p - at) / 4 * 4;
      assert m[b..b + 4][p - b] == m'[b..b + 4][p - b];
    }
  }

  lemma SameBlocks(m: Message, m': Message)
    requires |m| == |m'| && m[..|m| / 16 * 16] == m'[..|m| / 16 * 16]
    ensures Blocks(m) == Blocks(m')
  {
    hide Word32At;
    forall i | 0 <= i < |m| / 16 ensures BlockAt(m, 16 * i) == BlockAt(m', 16 * i) {
      forall p | 16 * i <= p < 16 * i + 16 ensures m[p] == m'[p] {
        assert m[p] == m[..|m| / 16 * 16][p];
      }
      SameWords(m, m', 16 * i);
    }
  }

  /** Only the tail differs: the bodies agree and the tails do not. */
  lemma TailCase(m: Message, m': Message)
    requires DifferInTail(m, m', 16)
    ensures Body(m) == Body(m') && Tail(m, 16) != Tail(m', 16)
  {
    hide Mix, Fold, BlockAt, Blocks;
    SameBlocks(m, m');
    assert m == m[..|m| / 16 * 16] + Tail(m, 16);
    assert m' == m'[..|m| / 16 * 16] + Tail(m', 16);
  }

  /** Only one block differs: the tails agree and the bodies do not. */
  lemma BlockCase(m: Message, m': Message, j: nat)
    requires DifferInBlock(m, m', 16, j)
    ensures Body(m) != Body(m') && Tail(m, 16) == Tail(m', 16)
  {
    hide Mix, Fold, BlockAt, Blocks;
    BlocksDiffer(m, m', j);
    MixIsReversible();
    FoldSeparates(Mix, SEED, Blocks(m), Blocks(m'), j);
  }

  /** States or tails that differ, but not both, end in different hashes. */
  lemma FinishSeparates(s: Lanes, s': Lanes, t: Message, t': Message, n: bv32)
    requires |t| == |t'| < 16 && (s == s') != (t == t')
    ensures Finish(TailMix(s, t), n) != Finish(TailMix(s', t'), n)
  {
    hide Finish, UnFinish, TailMix;
    FinishBijection(TailMix(s, t), n);
    FinishBijection(TailMix(s', t'), n);
    if TailMix(s, t) == TailMix(s', t') {
      TailMixSeparates(s, s', t, t');
    }
  }

  /** Messages of one length that differ only inside one aligned 16-byte block, or only in the tail,
      never share a 128-bit hash. */
  lemma NoCollision(m: Message, m': Message)
    requires |m| < 0x8000_0000
    requires DifferInOneUnit(m, m', 16)
    ensures Hash(m) != Hash(m')
  {
    hide Finish, TailMix, Body;
    if DifferInTail(m, m', 16) {
      TailCase(m, m');
    } else {
      var j: nat :| DifferInBlock(m, m', 16, j);
      BlockCase(m, m', j);
    }
    assert Size(m) == Size(m');
    hide Size;
    FinishSeparates(Body(m), Body(m'), Tail(m, 16), Tail(m', 16), Size(m));
  }
}
