/** The token 2^32 - 1 doubles as "not found" in searches by identifier.  Which classifiers hash to it? */
module NotFoundToken {
  import opened MurmurWords
  import opened Messages
  import opened BlockFold
  import opened MurmurX86_32
  import opened Differentiation

  const NOT_FOUND_WORD: bv32 := 0xFFFF_FFFF

  /** The text "58894|11005". */
  const CLASHING: Message := [53, 56, 56, 57, 52, 124, 49, 49, 48, 48, 53]

  lemma FirstDecimal()
    ensures Decimal(58894) == [53, 56, 56, 57, 52]
  {
    assert Decimal(5) == [53];
    hide Decimal;
    LastDigit(5, 8);
    LastDigit(58, 8);
    LastDigit(588, 9);
    LastDigit(5889, 4);
  }

  lemma SecondDecimal()
    ensures Decimal(11005) == [49, 49, 48, 48, 53]
  {
    assert Decimal(1) == [49];
    hide Decimal;
    LastDigit(1, 1);
    LastDigit(11, 0);
    LastDigit(110, 0);
    LastDigit(1100, 5);
  }

  lemma ClashingText()
    ensures Join(Decimal(58894), Decimal(11005)) == CLASHING
  {
    FirstDecimal();
    SecondDecimal();
    hide Decimal;
  }

  /** The words of the text. */
  lemma ClashingWords()
    ensures Blocks(CLASHING) == [0x39383835, 0x31317c34] && Tail(CLASHING, 4) == [48, 48, 53]
    ensures TailWord32([48, 48, 53], 0) == 0x353030
  {
    var b := Blocks(CLASHING);
    assert b[0] == Word32(53, 56, 56, 57) && b[1] == Word32(52, 124, 49, 49);
    assert b == [b[0], b[1]];
  }

  lemma FirstBlock(a: bv32)
    ensures Fold(Mix, SEED, [a]) == Mix(SEED, a)
  {
    hide Mix;
    assert [a][..0] == [];
    assert Fold(Mix, SEED, []) == SEED;
  }

  lemma TwoBlocks(a: bv32, b: bv32)
    ensures Fold(Mix, SEED, [a, b]) == Mix(Mix(SEED, a), b)
  {
    FirstBlock(a);
    hide Mix;
    assert [a, b][..1] == [a];
  }

  lemma ClashingSteps()
    ensures Mix(SEED, 0x39383835) == 0xbd18f8c1
    ensures Mix(0xbd18f8c1, 0x31317c34) == 0x14fc64ca
    ensures Xor32(0x14fc64ca, Scramble32(0x353030, C1, 15, C2)) == 0x331da088
    ensures Fmix32(Xor32(0x331da088, 11)) == NOT_FOUND_WORD
  {}

  lemma ClashingHash()
    ensures Hash(CLASHING) == NOT_FOUND_WORD
  {
    ClashingWords();
    ClashingSteps();
    TwoBlocks(0x39383835, 0x31317c34);
    hide Mix, Fmix32, Xor32, Scramble32, Fold, Blocks, Tail, TailWord32;
  }

  /** With operation type and context both hashed, for channels or for objects, the pair (58894, 11005)
      has the not-found token. */
  lemma TwoClassifiersClash(workflow: Classifier)
    ensures TokenOf(TypeContext, Tuple(workflow, 58894, 11005)) == Token(NOT_FOUND_WORD)
  {
    ClashingText();
    ClashingHash();
    hide Decimal, Join, Hash;
  }

  // ---------- settings that never clash ----------

  /** The finalization can be undone from the not-found word. */
  lemma Unfinished(h: bv32, n: bv32)
    requires Fmix32(Xor32(h, n)) == NOT_FOUND_WORD
    ensures h == Xor32(UnFmix32(NOT_FOUND_WORD), n)
  {
    hide Xor32, Fmix32, UnFmix32;
    Fmix32Bijection(Xor32(h, n));
    Xor32Undone(h, n);
  }

  lemma UnfinishedWord()
    ensures UnFmix32(NOT_FOUND_WORD) == 0x331da083
  {}

  /** A text of one block. */
  lemma OneBlock(m: Message)
    requires |m| == 4
    ensures Hash(m) == Fmix32(Xor32(Mix(SEED, Word32(m[0], m[1], m[2], m[3])), 4))
  {
    hide Mix, Fmix32, Xor32, Word32;
    var b := Blocks(m);
    assert b == [Word32(m[0], m[1], m[2], m[3])] && b[..0] == [];
    assert Tail(m, 4) == [];
    assert Fold(Mix, SEED, b[..0]) == SEED;
  }

  /** A text of less than a block. */
  lemma NoBlock(m: Message)
    requires 0 < |m| < 4
    ensures Hash(m) == Fmix32(Xor32(Xor32(SEED, Scramble32(TailWord32(m, 0), C1, 15, C2)), |m| as bv32))
  {
    hide Mix, Fmix32, Xor32, Scramble32, TailWord32;
    assert Blocks(m) == [];
    assert Tail(m, 4) == m;
  }

  /** The only block, and the only tail words, that lead to the not-found token. */
  lemma LastBlocks()
    ensures SolveMix(SEED, 0x331da087) == 0x9a74d2e9
    ensures Scramble32(Xor32(SEED, 0x331da082), 0x56ed309b, 17, 0xdee13bb1) == 0xad3b7e7f
    ensures Scramble32(Xor32(SEED, 0x331da081), 0x56ed309b, 17, 0xdee13bb1) == 0x11270f5e
    ensures Scramble32(Xor32(SEED, 0x331da080), 0x56ed309b, 17, 0xdee13bb1) == 0x67ad9da4
  {}

  lemma OneBlockFound(m: Message)
    requires |m| == 4 && m[0] < 128
    ensures Hash(m) != NOT_FOUND_WORD
  {
    var w := Word32(m[0], m[1], m[2], m[3]);
    Word32Bytes(m[0], m[1], m[2], m[3]);
    OneBlock(m);
    MixUndone(SEED, w);
    LastBlocks();
    UnfinishedWord();
    assert Xor32(0x331da083, 4) == 0x331da087;
    assert Byte32(0x9a74d2e9, 0) == 0xe9;
    hide Mix, SolveMix, Word32, Xor32, Fmix32, UnFmix32, Byte32, Hash, Scramble32;
    if Hash(m) == NOT_FOUND_WORD {
      Unfinished(Mix(SEED, w), 4);
    }
  }

  lemma Constants()
    ensures Xor32(0x331da083, 1) == 0x331da082
    ensures Xor32(0x331da083, 2) == 0x331da081
    ensures Xor32(0x331da083, 3) == 0x331da080
    ensures Byte32(0xad3b7e7f, 3) != 0 && Byte32(0x11270f5e, 3) != 0 && Byte32(0x67ad9da4, 3) != 0
  {}

  /** A tail word that reaches the not-found token has a top byte, so it takes four bytes of text. */
  lemma TailFound(w: bv32, n: bv32)
    requires n == 1 || n == 2 || n == 3
    requires Byte32(w, 3) == 0
    ensures Fmix32(Xor32(Xor32(SEED, Scramble32(w, C1, 15, C2)), n)) != NOT_FOUND_WORD
  {
    hide Word32, Xor32, Fmix32, UnFmix32, Byte32, Scramble32, Times32;
    var h := Scramble32(w, C1, 15, C2);
    if Fmix32(Xor32(Xor32(SEED, h), n)) == NOT_FOUND_WORD {
      Unfinished(Xor32(SEED, h), n);
      UnfinishedWord();
      Constants();
      LastBlocks();
      InverseConstants();
      XorUndone(SEED, h);
      Scramble32Undone(w, C1, 15, C2, 0xdee13bb1, 0x56ed309b);
    }
  }

  lemma XorUndone(x: bv32, y: bv32)
    ensures Xor32(x, Xor32(x, y)) == y
  {}

  lemma NoBlockFound(m: Message)
    requires 0 < |m| < 4
    ensures Hash(m) != NOT_FOUND_WORD
  {
    hide Xor32, Fmix32, Hash, Scramble32, Byte32, Word32;
    Word32Bytes(At(m, 0), At(m, 1), At(m, 2), At(m, 3));
    NoBlock(m);
    if |m| == 1 {
      TailFound(TailWord32(m, 0), 1);
    } else if |m| == 2 {
      TailFound(TailWord32(m, 0), 2);
    } else {
      TailFound(TailWord32(m, 0), 3);
    }
  }

  /** With one classifier hashed, no value below ten thousand has the not-found token. */
  lemma SmallValuesFound(f: Flags, x: Tuple)
    requires Single(f) && Selected(f, x) < 10_000
    ensures TokenOf(Pick(f), x) != Token(NOT_FOUND_WORD)
  {
    hide Decimal, Hash;
    var m := Text(Pick(f), x);
    assert m == Decimal(Selected(f, x));
    DecimalLength(Selected(f, x), 4);
    assert Pow10(4) == 10_000 by { assert Pow10(2) == 100; }
    if |m| == 4 {
      DigitsSmall(m);
      OneBlockFound(m);
    } else {
      NoBlockFound(m);
    }
  }

  lemma DigitsSmall(m: Message)
    requires |m| > 0 && forall b | b in m :: b in DIGITS
    ensures m[0] < 128
  {
    assert m[0] in m;
  }

  /** With no classifier hashed, as objects are by default, the one token there is can be found. */
  lemma NoDiffFound(x: Tuple)
    ensures TokenOf(NoDiff, x) != Token(NOT_FOUND_WORD)
  {
    NoDiffWords();
    FirstBlock(0x645f6f6e);
    hide Mix, Fmix32, Xor32, Scramble32, TailWord32, Fold, Blocks, Tail;
    assert Hash(NO_DIFF) == 0x7a31f15f;
    hide Hash;
  }

  lemma NoDiffWords()
    ensures Blocks(NO_DIFF) == [0x645f6f6e] && Tail(NO_DIFF, 4) == [105, 102, 102]
    ensures TailWord32([105, 102, 102], 0) == 0x666669
    ensures Mix(SEED, 0x645f6f6e) == 0x0a81cea1
    ensures Xor32(0x0a81cea1, Scramble32(0x666669, C1, 15, C2)) == 0x3ab274cf
    ensures Fmix32(Xor32(0x3ab274cf, 7)) == 0x7a31f15f
  {
    var b := Blocks(NO_DIFF);
    assert b[0] == Word32(110, 111, 95, 100);
    assert b == [b[0]];
  }

  /** The text "11005" alone. */
  const CONTEXT: Message := [49, 49, 48, 48, 53]

  lemma ContextWords()
    ensures Blocks(CONTEXT) == [0x30303131] && Tail(CONTEXT, 4) == [53]
    ensures TailWord32([53], 0) == 0x35
    ensures Mix(SEED, 0x30303131) == 0x2da62adb
    ensures Xor32(0x2da62adb, Scramble32(0x35, C1, 15, C2)) == 0x54fae156
    ensures Fmix32(Xor32(0x54fae156, 5)) == 0xc5f86c4d
  {
    var b := Blocks(CONTEXT);
    assert b[0] == Word32(49, 49, 48, 48);
    assert b == [b[0]];
  }

  /** The context of the clashing pair does not clash alone. */
  lemma ContextFound(workflow: Classifier)
    ensures TokenOf(Context, Tuple(workflow, 58894, 11005)) != Token(NOT_FOUND_WORD)
  {
    ContextWords();
    FirstBlock(0x30303131);
    SecondDecimal();
    hide Mix, Fmix32, Xor32, Scramble32, TailWord32, Fold, Blocks, Tail, Decimal;
    assert Hash(CONTEXT) == 0xc5f86c4d;
    hide Hash;
  }
}
