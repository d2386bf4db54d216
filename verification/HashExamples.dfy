/** One message under each of the 128-bit hashes, with every intermediate state in numbers: it has one full
    block and the longest tail, so every constant, rotation and seed takes part. */
module HashExamples {
  import opened MurmurWords
  import opened Messages
  import opened BlockFold
  import A = MurmurX86_128
  import B = MurmurX64_128

  /** The bytes 1 to 31. */
  const BLOCK: Message := [1, 2, 3, 4, 5, 6, 7, 8, 9, 10, 11, 12, 13, 14, 15, 16]
  const TAIL: Message := [17, 18, 19, 20, 21, 22, 23, 24, 25, 26, 27, 28, 29, 30, 31]
  const MESSAGE: Message := BLOCK + TAIL

  // ---------- four lanes ----------

  lemma BlockA()
    ensures A.Blocks(MESSAGE) == [A.Block(0x04030201, 0x08070605, 0x0c0b0a09, 0x100f0e0d)]
    ensures Tail(MESSAGE, 16) == TAIL
  {
    var b := A.Blocks(MESSAGE);
    assert b[0] == A.Block(Word32(1, 2, 3, 4), Word32(5, 6, 7, 8), Word32(9, 10, 11, 12), Word32(13, 14, 15, 16));
    assert b == [b[0]];
  }

  lemma MixA()
    ensures A.Mix(A.SEED, A.Block(0x04030201, 0x08070605, 0x0c0b0a09, 0x100f0e0d))
         == A.Lanes(0xc534cc2b, 0x7bb28a28, 0x78cd420c, 0x662a6409)
  {}

  lemma TailA()
    ensures A.TailMix(A.Lanes(0xc534cc2b, 0x7bb28a28, 0x78cd420c, 0x662a6409), TAIL)
         == A.Lanes(0xf84951d2, 0x2f01feeb, 0x2659b5a7, 0x636864dd)
  {
    assert TailWord32(TAIL, 0) == 0x14131211 && TailWord32(TAIL, 4) == 0x18171615;
    assert TailWord32(TAIL, 8) == 0x1c1b1a19 && TailWord32(TAIL, 12) == 0x001f1e1d;
    hide TailWord32;
  }

  lemma FinishA()
    ensures A.Finish(A.Lanes(0xf84951d2, 0x2f01feeb, 0x2659b5a7, 0x636864dd), 31)
         == A.Lanes(0x35ace798, 0x7132e8a5, 0x3527755c, 0x34e6e079)
  {}

  /** The x86 variant. */
  lemma HashOfMessageA()
    ensures A.Hash(MESSAGE) == A.Lanes(0x35ace798, 0x7132e8a5, 0x3527755c, 0x34e6e079)
  {
    BlockA();
    MixA();
    TailA();
    FinishA();
    hide A.Mix, A.TailMix, A.Finish, A.Blocks, Tail;
    assert A.Blocks(MESSAGE)[..0] == [];
    assert Fold(A.Mix, A.SEED, []) == A.SEED;
  }

  // ---------- two lanes ----------

  lemma BlockB()
    ensures B.Blocks(MESSAGE) == [B.Block(0x0807060504030201, 0x100f0e0d0c0b0a09)]
    ensures Tail(MESSAGE, 16) == TAIL
  {
    var b := B.Blocks(MESSAGE);
    assert b[0] == B.Block(Word64(1, 2, 3, 4, 5, 6, 7, 8), Word64(9, 10, 11, 12, 13, 14, 15, 16));
    assert b == [b[0]];
  }

  lemma MixB()
    ensures B.Mix(B.SEED, B.Block(0x0807060504030201, 0x100f0e0d0c0b0a09))
         == B.Lanes(0x178125036f939744, 0x561de187ad4578a1)
  {}

  lemma TailB()
    ensures B.TailMix(B.Lanes(0x178125036f939744, 0x561de187ad4578a1), TAIL)
         == B.Lanes(0x4909611e5b4c3c5f, 0xd65ae90e245b1fc7)
  {
    assert TailWord64(TAIL, 0) == 0x1817161514131211 && TailWord64(TAIL, 8) == 0x001f1e1d1c1b1a19;
    hide TailWord64;
  }

  lemma FinishB()
    ensures B.Finish(B.Lanes(0x4909611e5b4c3c5f, 0xd65ae90e245b1fc7), 31)
         == B.Lanes(0xc74745fb49087ded, 0xd40e74db473eacb0)
  {}

  /** The x64 variant. */
  lemma HashOfMessageB()
    ensures B.Hash(MESSAGE) == B.Lanes(0xc74745fb49087ded, 0xd40e74db473eacb0)
  {
    BlockB();
    MixB();
    TailB();
    FinishB();
    hide B.Mix, B.TailMix, B.Finish, B.Blocks, Tail;
    assert B.Blocks(MESSAGE)[..0] == [];
    assert Fold(B.Mix, B.SEED, []) == B.SEED;
  }
}
