/** MurmurHash3_x86_32, the hash that builds every differentiation token. */
module MurmurX86_32 {
  import opened MurmurWords
  import opened Messages
  import opened BlockFold

  const SEED: bv32 := 42
  const C1: bv32 := 0xcc9e2d51
  const C2: bv32 := 0x1b873593

  /** One block enters the state. */
  function Mix(h: bv32, k: bv32): bv32 {
    Lane32(h, Scramble32(k, C1, 15, C2), 13, 0, 0xe6546b64)
  }

  function Blocks(m: Message): (b: seq<bv32>)
    ensures |b| == |m| / 4
  {
    seq(|m| / 4, i requires 0 <= i < |m| / 4 => Word32At(m, 4 * i))
  }

  /** A nonempty tail enters the state without the rotation. */
  function TailMix(h: bv32, t: Message): bv32 {
    if |t| == 0 then h else Xor32(h, Scramble32(TailWord32(t, 0), C1, 15, C2))
  }

  function Body(m: Message): bv32 {
    Fold(Mix, SEED, Blocks(m))
  }

  function Hash(m: Message): bv32
    requires |m| < 0x8000_0000
  {
    Fmix32(Xor32(TailMix(Body(m), Tail(m, 4)), |m| as bv32))
  }

  /** `p[i]` for a block pointer that starts `base` bytes into the message. */
  function GetBlock(m: Message, base: nat, i: int): bv32
    requires 0 <= base + 4 * i && base + 4 * i + 4 <= |m|
  {
    Word32At(m, base + 4 * i)
  }

  lemma AddZero(x: bv32)
    ensures Add32(x, 0) == x
  {}

  /** The body: the loop runs a negative index up to zero from a pointer past the last block. */
  method AbsorbBlocks(message: Message) returns (h1: bv32)
    ensures h1 == Body(message)
  {
    hide Rotl32, Times32, Add32, Xor32, Word32At;
    var nblocks := |message| / 4;
    h1 := SEED;
    var i := -nblocks;
    while i != 0
      invariant -nblocks <= i <= 0
      invariant h1 == Fold(Mix, SEED, Blocks(message)[..nblocks + i])
    {
      ghost var done := Blocks(message)[..nblocks + i + 1];
      assert done[..nblocks + i] == Blocks(message)[..nblocks + i];
      var k1 := GetBlock(message, nblocks * 4, i);
      k1 := Times32(k1, C1);
      k1 := Rotl32(k1, 15);
      k1 := Times32(k1, C2);
      h1 := Xor32(h1, k1);
      h1 := Rotl32(h1, 13);
      AddZero(h1);
      h1 := Add32(Times32(h1, 5), 0xe6546b64);
      i := i + 1;
    }
    assert Blocks(message)[..nblocks] == Blocks(message);
  }

  method X86_32(message: Message) returns (token: bv32)
    requires |message| < 0x8000_0000
    ensures token == Hash(message)
  {
    hide Rotl32, Times32, Xor32, Fmix32, Place32, TailWord32, Body;
    var h1 := AbsorbBlocks(message);
    var tail := message[|message| / 4 * 4..];
    var k1: bv32 := 0;
    if |tail| >= 3 { k1 := Xor32(k1, Place32(tail[2], 16)); }
    if |tail| >= 2 { k1 := Xor32(k1, Place32(tail[1], 8)); }
    if |tail| >= 1 {
      k1 := Xor32(k1, Place32(tail[0], 0));
      Gather32IsTailWord(tail, 0);
      k1 := Times32(k1, C1);
      k1 := Rotl32(k1, 15);
      k1 := Times32(k1, C2);
      h1 := Xor32(h1, k1);
    }
    h1 := Xor32(h1, |message| as bv32);
    token := Fmix32(h1);
  }

  // ---------- inverses of the block step ----------

  function UnMix(h': bv32, k: bv32): bv32 {
    Xor32(UnLane32(h', 13, 0, 0xe6546b64), Scramble32(k, C1, 15, C2))
  }

  function SolveMix(h: bv32, h': bv32): bv32 {
    Scramble32(Xor32(h, UnLane32(h', 13, 0, 0xe6546b64)), 0x56ed309b, 17, 0xdee13bb1)
  }

  lemma MixUndone(h: bv32, k: bv32)
    ensures UnMix(Mix(h, k), k) == h
    ensures SolveMix(h, Mix(h, k)) == k
  {
    hide Rotl32, Times32, Add32, Sub32, Xor32, Lane32, UnLane32, Scramble32;
    var w := Scramble32(k, C1, 15, C2);
    Lane32Undone(h, w, 13, 0, 0xe6546b64);
    Xor32Undone(h, w);
    Xor32Undone(w, h);
    InverseConstants();
    Scramble32Undone(k, C1, 15, C2, 0xdee13bb1, 0x56ed309b);
  }

  lemma InverseConstants()
    ensures Times32(C1, 0xdee13bb1) == 1 && Times32(0xdee13bb1, C1) == 1
    ensures Times32(C2, 0x56ed309b) == 1 && Times32(0x56ed309b, C2) == 1
    ensures Times32(5, 0xcccccccd) == 1 && Times32(0xcccccccd, 5) == 1
  {}

  lemma MixRedone(h: bv32, h': bv32, k: bv32)
    ensures Mix(UnMix(h', k), k) == h'
    ensures Mix(h, SolveMix(h, h')) == h'
  {
    hide Rotl32, Times32, Add32, Sub32, Xor32, UnLane32, Scramble32;
    var u := UnLane32(h', 13, 0, 0xe6546b64);
    Lane32Redone(h', u, 13, 0, 0xe6546b64);
    Xor32Undone(u, Scramble32(k, C1, 15, C2));
    Xor32Undone(u, h);
    InverseConstants();
    Scramble32Undone(Xor32(h, u), 0x56ed309b, 17, 0xdee13bb1, C2, C1);
  }

  lemma MixIsReversible()
    ensures KeepsState(Mix) && KeepsBlock(Mix) && Reversible(Mix, UnMix, SolveMix)
  {
    hide Mix, UnMix, SolveMix;
    forall h, h', k | Mix(h, k) == Mix(h', k) ensures h == h' {
      MixUndone(h, k);
      MixUndone(h', k);
    }
    forall h, k, k' | Mix(h, k) == Mix(h, k') ensures k == k' {
      MixUndone(h, k);
      MixUndone(h, k');
    }
    forall h, k ensures Mix(UnMix(h, k), k) == h {
      MixRedone(h, h, k);
    }
    forall h, h' ensures Mix(h, SolveMix(h, h')) == h' {
      MixRedone(h, h', 0);
    }
  }

  // ---------- no collisions within one unit ----------

  lemma BlocksDiffer(m: Message, m': Message, j: nat)
    requires DifferInBlock(m, m', 4, j)
    ensures DifferOnlyAt(Blocks(m), Blocks(m'), j)
  {
    hide Word32;
    forall i | 0 <= i < |m| / 4 && i != j ensures Word32At(m, 4 * i) == Word32At(m', 4 * i) {
      AgreeOutside(m, m', 4, j, 4 * i);
      AgreeOutside(m, m', 4, j, 4 * i + 1);
      AgreeOutside(m, m', 4, j, 4 * i + 2);
      AgreeOutside(m, m', 4, j, 4 * i + 3);
    }
    DisagreeInside(m, m', 4, j);
    if Word32At(m, 4 * j) == Word32At(m', 4 * j) {
      Word32Separates(m, m', 4 * j);
    }
  }

  lemma SameBlocks(m: Message, m': Message)
    requires |m| == |m'| && m[..|m| / 4 * 4] == m'[..|m| / 4 * 4]
    ensures Blocks(m) == Blocks(m')
  {
    hide Word32;
    forall p | 0 <= p < |m| / 4 * 4 ensures m[p] == m'[p] {
      assert m[p] == m[..|m| / 4 * 4][p];
    }
  }

  lemma TailWordSeparates(t: Message, t': Message)
    requires |t| == |t'| < 4
    requires TailWord32(t, 0) == TailWord32(t', 0)
    ensures t == t'
  {
    hide Word32, Byte32;
    Word32Bytes(At(t, 0), At(t, 1), At(t, 2), At(t, 3));
    Word32Bytes(At(t', 0), At(t', 1), At(t', 2), At(t', 3));
    assert forall i | 0 <= i < |t| :: At(t, i) == t[i] && At(t', i) == t'[i];
  }

  lemma TailSeparates(h: bv32, t: Message, t': Message)
    requires |t| == |t'| < 4 && t != t'
    ensures TailMix(h, t) != TailMix(h, t')
  {
    hide Xor32, Scramble32, TailWord32, Rotl32, Times32;
    var w, w' := TailWord32(t, 0), TailWord32(t', 0);
    if TailMix(h, t) == TailMix(h, t') {
      Xor32Undone(Scramble32(w, C1, 15, C2), h);
      Xor32Undone(Scramble32(w', C1, 15, C2), h);
      InverseConstants();
      Scramble32Undone(w, C1, 15, C2, 0xdee13bb1, 0x56ed309b);
      Scramble32Undone(w', C1, 15, C2, 0xdee13bb1, 0x56ed309b);
      TailWordSeparates(t, t');
    }
  }

  lemma StateSeparates(h: bv32, h': bv32, t: Message)
    requires h != h'
    ensures TailMix(h, t) != TailMix(h', t)
  {
    hide Xor32, Scramble32, TailWord32;
    Xor32Undone(h, Scramble32(TailWord32(t, 0), C1, 15, C2));
    Xor32Undone(h', Scramble32(TailWord32(t, 0), C1, 15, C2));
  }

  lemma FinishSeparates(h: bv32, h': bv32, n: bv32)
    requires h != h'
    ensures Fmix32(Xor32(h, n)) != Fmix32(Xor32(h', n))
  {
    hide Xor32, Fmix32, UnFmix32;
    Xor32Undone(h, n);
    Xor32Undone(h', n);
    Fmix32Bijection(Xor32(h, n));
    Fmix32Bijection(Xor32(h', n));
  }

  /** Messages of one length that differ only inside one aligned 4-byte block, or only in the tail,
      never share a token. */
  lemma NoCollision(m: Message, m': Message)
    requires |m| < 0x8000_0000
    requires DifferInOneUnit(m, m', 4)
    ensures Hash(m) != Hash(m')
  {
    hide Mix, Fmix32, Xor32, TailMix, Fold, Word32At, Blocks;
    if DifferInTail(m, m', 4) {
      SameBlocks(m, m');
      TailSeparates(Body(m), Tail(m, 4), Tail(m', 4)) by {
        assert m == m[..|m| / 4 * 4] + Tail(m, 4);
        assert m' == m'[..|m| / 4 * 4] + Tail(m', 4);
      }
    } else {
      var j: nat :| DifferInBlock(m, m', 4, j);
      BlocksDiffer(m, m', j);
      MixIsReversible();
      FoldSeparates(Mix, SEED, Blocks(m), Blocks(m'), j);
      assert Tail(m, 4) == Tail(m', 4);
      StateSeparates(Body(m), Body(m'), Tail(m, 4));
    }
    FinishSeparates(TailMix(Body(m), Tail(m, 4)), TailMix(Body(m'), Tail(m', 4)), |m| as bv32);
  }

  /** The message with block `j` replaced by the bytes of `w`. */
  function WithBlock(m: Message, j: nat, w: bv32): (m': Message)
    requires 4 * j + 4 <= |m|
    ensures |m'| == |m|
  {
    m[..4 * j] + [Byte32(w, 0), Byte32(w, 1), Byte32(w, 2), Byte32(w, 3)] + m[4 * j + 4..]
  }

  lemma WithBlockBlocks(m: Message, j: nat, w: bv32)
    requires 4 * j + 4 <= |m|
    ensures Blocks(WithBlock(m, j, w)) == Blocks(m)[j := w]
    ensures Tail(WithBlock(m, j, w), 4) == Tail(m, 4)
  {
    hide Word32, Byte32;
    var m' := WithBlock(m, j, w);
    BytesWord32(w);
    forall i | 0 <= i < |m| / 4 && i != j ensures Word32At(m', 4 * i) == Word32At(m, 4 * i) {
      if i < j {
        assert m'[4 * i] == m[4 * i] && m'[4 * i + 1] == m[4 * i + 1];
        assert m'[4 * i + 2] == m[4 * i + 2] && m'[4 * i + 3] == m[4 * i + 3];
      } else {
        assert m'[4 * i] == m[4 * i] && m'[4 * i + 1] == m[4 * i + 1];
        assert m'[4 * i + 2] == m[4 * i + 2] && m'[4 * i + 3] == m[4 * i + 3];
      }
    }
    assert Word32At(m', 4 * j) == w;
  }

  /** The state that the finalization takes to a given token. */
  function StateFor(token: bv32, t: Message, n: bv32): bv32 {
    var mixed := Xor32(UnFmix32(token), n);
    if |t| == 0 then mixed else Xor32(mixed, Scramble32(TailWord32(t, 0), C1, 15, C2))
  }

  lemma StateForToken(token: bv32, t: Message, n: bv32)
    ensures Fmix32(Xor32(TailMix(StateFor(token, t, n), t), n)) == token
  {
    hide Fmix32, UnFmix32, Xor32, Scramble32, TailWord32;
    Xor32Undone(Xor32(UnFmix32(token), n), Scramble32(TailWord32(t, 0), C1, 15, C2));
    Xor32Undone(UnFmix32(token), n);
    Fmix32Bijection(token);
  }

  /** Whatever the rest of the message is, one block takes the hash to any token at all. */
  lemma BlockReachesEveryToken(m: Message, j: nat, token: bv32) returns (w: bv32)
    requires |m| < 0x8000_0000 && 4 * j + 4 <= |m|
    ensures Hash(WithBlock(m, j, w)) == token
  {
    hide Mix, UnMix, SolveMix, StateFor, TailMix, Fmix32, Xor32, WithBlock, Fold, Tail, Blocks;
    var goal := StateFor(token, Tail(m, 4), |m| as bv32);
    MixIsReversible();
    w := FoldReaches(Mix, UnMix, SolveMix, SEED, Blocks(m), j, goal);
    WithBlockBlocks(m, j, w);
    StateForToken(token, Tail(m, 4), |m| as bv32);
  }
}
