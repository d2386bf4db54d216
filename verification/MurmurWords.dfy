/** The machine-word operations of MurmurHash3 and their inverses. */
module MurmurWords {

  type Byte = bv8

  // Every word operation is a named function with a lemma that undoes it, so that the hashes can be
  // reasoned about by composing those lemmas.

  function Xor32(x: bv32, y: bv32): bv32 { x ^ y }
  function Xor64(x: bv64, y: bv64): bv64 { x ^ y }
  function Add32(x: bv32, y: bv32): bv32 { x + y }
  function Add64(x: bv64, y: bv64): bv64 { x + y }
  function Sub32(x: bv32, y: bv32): bv32 { x - y }
  function Sub64(x: bv64, y: bv64): bv64 { x - y }
  function Times32(x: bv32, c: bv32): bv32 { x * c }
  function Times64(x: bv64, c: bv64): bv64 { x * c }

  function Rotl32(x: bv32, r: bv6): bv32
    requires 0 < r < 32
  {
    (x << r) | (x >> (32 - r))
  }

  function Rotl64(x: bv64, r: bv7): bv64
    requires 0 < r < 64
  {
    (x << r) | (x >> (64 - r))
  }

  lemma Xor32Undone(x: bv32, y: bv32)
    ensures Xor32(Xor32(x, y), y) == x
    ensures Xor32(y, Xor32(y, x)) == x
  {
    Xor32Right(x, y);
    Xor32Left(x, y);
  }

  lemma Xor32Right(x: bv32, y: bv32)
    ensures Xor32(Xor32(x, y), y) == x
  {
    assert Xor32(x ^ y, y) == x;
  }

  lemma Xor32Left(x: bv32, y: bv32)
    ensures Xor32(y, Xor32(y, x)) == x
  {
    assert Xor32(y, y ^ x) == x;
  }

  lemma Xor64Undone(x: bv64, y: bv64)
    ensures Xor64(Xor64(x, y), y) == x
    ensures Xor64(y, Xor64(y, x)) == x
  {
    Xor64Right(x, y);
    Xor64Left(x, y);
  }

  lemma Xor64Right(x: bv64, y: bv64)
    ensures Xor64(Xor64(x, y), y) == x
  {
    assert Xor64(x ^ y, y) == x;
  }

  lemma Xor64Left(x: bv64, y: bv64)
    ensures Xor64(y, Xor64(y, x)) == x
  {
    assert Xor64(y, y ^ x) == x;
  }

  lemma Add32Undone(x: bv32, y: bv32)
    ensures Sub32(Add32(x, y), y) == x && Add32(Sub32(x, y), y) == x
  {
    assert Sub32(x + y, y) == x;
    assert Add32(x - y, y) == x;
  }

  lemma Add64Undone(x: bv64, y: bv64)
    ensures Sub64(Add64(x, y), y) == x && Add64(Sub64(x, y), y) == x
  {
    assert Sub64(x + y, y) == x;
    assert Add64(x - y, y) == x;
  }

  /** Multiplying by a constant is undone by its inverse modulo the word size. */
  lemma Times32Undone(x: bv32, c: bv32, d: bv32)
    requires Times32(c, d) == 1
    ensures Times32(Times32(x, c), d) == x
  {
    Times32Assoc(x, c, d);
    Times32One(x);
  }

  lemma Times32Assoc(x: bv32, c: bv32, d: bv32)
    ensures Times32(Times32(x, c), d) == Times32(x, Times32(c, d))
  {
    assert Times32(x * c, d) == Times32(x, c * d);
  }

  lemma Times32One(x: bv32)
    ensures Times32(x, 1) == x
  {}

  lemma Times64Undone(x: bv64, c: bv64, d: bv64)
    requires Times64(c, d) == 1
    ensures Times64(Times64(x, c), d) == x
  {
    Times64Assoc(x, c, d);
    Times64One(x);
  }

  lemma Times64Assoc(x: bv64, c: bv64, d: bv64)
    ensures Times64(Times64(x, c), d) == Times64(x, Times64(c, d))
  {
    assert Times64(x * c, d) == Times64(x, c * d);
  }

  lemma Times64One(x: bv64)
    ensures Times64(x, 1) == x
  {}

  /** Rotating on by the complement undoes a rotation. */
  lemma Rotl32Undone(x: bv32, r: bv6)
    requires 0 < r < 32
    ensures Rotl32(Rotl32(x, r), 32 - r) == x
  {
    if r < 16 {
      Rotl32Below16(x, r);
    } else {
      Rotl32Below32(x, r);
    }
    hide Rotl32;
  }

  lemma Rotl64Undone(x: bv64, r: bv7)
    requires 0 < r < 64
    ensures Rotl64(Rotl64(x, r), 64 - r) == x
  {
    if r < 16 {
      Rotl64Below16(x, r);
    } else if r < 32 {
      Rotl64Below32(x, r);
    } else if r < 48 {
      Rotl64Below48(x, r);
    } else {
      Rotl64Below64(x, r);
    }
    hide Rotl64;
  }

  // the same amount by amount

  lemma Rotl32Below16(x: bv32, r: bv6)
    requires 0 < r < 16
    ensures Rotl32(Rotl32(x, r), 32 - r) == x
  {
    if r == 1 { assert Rotl32((x << 1) | (x >> 31), 31) == x; }
    else if r == 2 { assert Rotl32((x << 2) | (x >> 30), 30) == x; }
    else if r == 3 { assert Rotl32((x << 3) | (x >> 29), 29) == x; }
    else if r == 4 { assert Rotl32((x << 4) | (x >> 28), 28) == x; }
    else if r == 5 { assert Rotl32((x << 5) | (x >> 27), 27) == x; }
    else if r == 6 { assert Rotl32((x << 6) | (x >> 26), 26) == x; }
    else if r == 7 { assert Rotl32((x << 7) | (x >> 25), 25) == x; }
    else if r == 8 { assert Rotl32((x << 8) | (x >> 24), 24) == x; }
    else if r == 9 { assert Rotl32((x << 9) | (x >> 23), 23) == x; }
    else if r == 10 { assert Rotl32((x << 10) | (x >> 22), 22) == x; }
    else if r == 11 { assert Rotl32((x << 11) | (x >> 21), 21) == x; }
    else if r == 12 { assert Rotl32((x << 12) | (x >> 20), 20) == x; }
    else if r == 13 { assert Rotl32((x << 13) | (x >> 19), 19) == x; }
    else if r == 14 { assert Rotl32((x << 14) | (x >> 18), 18) == x; }
    else { assert Rotl32((x << 15) | (x >> 17), 17) == x; }
  }

  lemma Rotl32Below32(x: bv32, r: bv6)
    requires 16 <= r < 32
    ensures Rotl32(Rotl32(x, r), 32 - r) == x
  {
    if r == 16 { assert Rotl32((x << 16) | (x >> 16), 16) == x; }
    else if r == 17 { assert Rotl32((x << 17) | (x >> 15), 15) == x; }
    else if r == 18 { assert Rotl32((x << 18) | (x >> 14), 14) == x; }
    else if r == 19 { assert Rotl32((x << 19) | (x >> 13), 13) == x; }
    else if r == 20 { assert Rotl32((x << 20) | (x >> 12), 12) == x; }
    else if r == 21 { assert Rotl32((x << 21) | (x >> 11), 11) == x; }
    else if r == 22 { assert Rotl32((x << 22) | (x >> 10), 10) == x; }
    else if r == 23 { assert Rotl32((x << 23) | (x >> 9), 9) == x; }
    else if r == 24 { assert Rotl32((x << 24) | (x >> 8), 8) == x; }
    else if r == 25 { assert Rotl32((x << 25) | (x >> 7), 7) == x; }
    else if r == 26 { assert Rotl32((x << 26) | (x >> 6), 6) == x; }
    else if r == 27 { assert Rotl32((x << 27) | (x >> 5), 5) == x; }
    else if r == 28 { assert Rotl32((x << 28) | (x >> 4), 4) == x; }
    else if r == 29 { assert Rotl32((x << 29) | (x >> 3), 3) == x; }
    else if r == 30 { assert Rotl32((x << 30) | (x >> 2), 2) == x; }
    else { assert Rotl32((x << 31) | (x >> 1), 1) == x; }
  }

  lemma Rotl64Below16(x: bv64, r: bv7)
    requires 0 < r < 16
    ensures Rotl64(Rotl64(x, r), 64 - r) == x
  {
    if r == 1 { assert Rotl64((x << 1) | (x >> 63), 63) == x; }
    else if r == 2 { assert Rotl64((x << 2) | (x >> 62), 62) == x; }
    else if r == 3 { assert Rotl64((x << 3) | (x >> 61), 61) == x; }
    else if r == 4 { assert Rotl64((x << 4) | (x >> 60), 60) == x; }
    else if r == 5 { assert Rotl64((x << 5) | (x >> 59), 59) == x; }
    else if r == 6 { assert Rotl64((x << 6) | (x >> 58), 58) == x; }
    else if r == 7 { assert Rotl64((x << 7) | (x >> 57), 57) == x; }
    else if r == 8 { assert Rotl64((x << 8) | (x >> 56), 56) == x; }
    else if r == 9 { assert Rotl64((x << 9) | (x >> 55), 55) == x; }
    else if r == 10 { assert Rotl64((x << 10) | (x >> 54), 54) == x; }
    else if r == 11 { assert Rotl64((x << 11) | (x >> 53), 53) == x; }
    else if r == 12 { assert Rotl64((x << 12) | (x >> 52), 52) == x; }
    else if r == 13 { assert Rotl64((x << 13) | (x >> 51), 51) == x; }
    else if r == 14 { assert Rotl64((x << 14) | (x >> 50), 50) == x; }
    else { assert Rotl64((x << 15) | (x >> 49), 49) == x; }
  }

  lemma Rotl64Below32(x: bv64, r: bv7)
    requires 16 <= r < 32
    ensures Rotl64(Rotl64(x, r), 64 - r) == x
  {
    if r == 16 { assert Rotl64((x << 16) | (x >> 48), 48) == x; }
    else if r == 17 { assert Rotl64((x << 17) | (x >> 47), 47) == x; }
    else if r == 18 { assert Rotl64((x << 18) | (x >> 46), 46) == x; }
    else if r == 19 { assert Rotl64((x << 19) | (x >> 45), 45) == x; }
    else if r == 20 { assert Rotl64((x << 20) | (x >> 44), 44) == x; }
    else if r == 21 { assert Rotl64((x << 21) | (x >> 43), 43) == x; }
    else if r == 22 { assert Rotl64((x << 22) | (x >> 42), 42) == x; }
    else if r == 23 { assert Rotl64((x << 23) | (x >> 41), 41) == x; }
    else if r == 24 { assert Rotl64((x << 24) | (x >> 40), 40) == x; }
    else if r == 25 { assert Rotl64((x << 25) | (x >> 39), 39) == x; }
    else if r == 26 { assert Rotl64((x << 26) | (x >> 38), 38) == x; }
    else if r == 27 { assert Rotl64((x << 27) | (x >> 37), 37) == x; }
    else if r == 28 { assert Rotl64((x << 28) | (x >> 36), 36) == x; }
    else if r == 29 { assert Rotl64((x << 29) | (x >> 35), 35) == x; }
    else if r == 30 { assert Rotl64((x << 30) | (x >> 34), 34) == x; }
    else { assert Rotl64((x << 31) | (x >> 33), 33) == x; }
  }

  lemma Rotl64Below48(x: bv64, r: bv7)
    requires 32 <= r < 48
    ensures Rotl64(Rotl64(x, r), 64 - r) == x
  {
    if r == 32 { assert Rotl64((x << 32) | (x >> 32), 32) == x; }
    else if r == 33 { assert Rotl64((x << 33) | (x >> 31), 31) == x; }
    else if r == 34 { assert Rotl64((x << 34) | (x >> 30), 30) == x; }
    else if r == 35 { assert Rotl64((x << 35) | (x >> 29), 29) == x; }
    else if r == 36 { assert Rotl64((x << 36) | (x >> 28), 28) == x; }
    else if r == 37 { assert Rotl64((x << 37) | (x >> 27), 27) == x; }
    else if r == 38 { assert Rotl64((x << 38) | (x >> 26), 26) == x; }
    else if r == 39 { assert Rotl64((x << 39) | (x >> 25), 25) == x; }
    else if r == 40 { assert Rotl64((x << 40) | (x >> 24), 24) == x; }
    else if r == 41 { assert Rotl64((x << 41) | (x >> 23), 23) == x; }
    else if r == 42 { assert Rotl64((x << 42) | (x >> 22), 22) == x; }
    else if r == 43 { assert Rotl64((x << 43) | (x >> 21), 21) == x; }
    else if r == 44 { assert Rotl64((x << 44) | (x >> 20), 20) == x; }
    else if r == 45 { assert Rotl64((x << 45) | (x >> 19), 19) == x; }
    else if r == 46 { assert Rotl64((x << 46) | (x >> 18), 18) == x; }
    else { assert Rotl64((x << 47) | (x >> 17), 17) == x; }
  }

  lemma Rotl64Below64(x: bv64, r: bv7)
    requires 48 <= r < 64
    ensures Rotl64(Rotl64(x, r), 64 - r) == x
  {
    if r == 48 { assert Rotl64((x << 48) | (x >> 16), 16) == x; }
    else if r == 49 { assert Rotl64((x << 49) | (x >> 15), 15) == x; }
    else if r == 50 { assert Rotl64((x << 50) | (x >> 14), 14) == x; }
    else if r == 51 { assert Rotl64((x << 51) | (x >> 13), 13) == x; }
    else if r == 52 { assert Rotl64((x << 52) | (x >> 12), 12) == x; }
    else if r == 53 { assert Rotl64((x << 53) | (x >> 11), 11) == x; }
    else if r == 54 { assert Rotl64((x << 54) | (x >> 10), 10) == x; }
    else if r == 55 { assert Rotl64((x << 55) | (x >> 9), 9) == x; }
    else if r == 56 { assert Rotl64((x << 56) | (x >> 8), 8) == x; }
    else if r == 57 { assert Rotl64((x << 57) | (x >> 7), 7) == x; }
    else if r == 58 { assert Rotl64((x << 58) | (x >> 6), 6) == x; }
    else if r == 59 { assert Rotl64((x << 59) | (x >> 5), 5) == x; }
    else if r == 60 { assert Rotl64((x << 60) | (x >> 4), 4) == x; }
    else if r == 61 { assert Rotl64((x << 61) | (x >> 3), 3) == x; }
    else if r == 62 { assert Rotl64((x << 62) | (x >> 2), 2) == x; }
    else { assert Rotl64((x << 63) | (x >> 1), 1) == x; }
  }

  /** Little-endian block reads. */
  function Word32(b0: Byte, b1: Byte, b2: Byte, b3: Byte): bv32 {
    (b0 as bv32) | ((b1 as bv32) << 8) | ((b2 as bv32) << 16) | ((b3 as bv32) << 24)
  }

  function Word64(b0: Byte, b1: Byte, b2: Byte, b3: Byte, b4: Byte, b5: Byte, b6: Byte, b7: Byte): bv64 {
    (b0 as bv64) | ((b1 as bv64) << 8) | ((b2 as bv64) << 16) | ((b3 as bv64) << 24)
    | ((b4 as bv64) << 32) | ((b5 as bv64) << 40) | ((b6 as bv64) << 48) | ((b7 as bv64) << 56)
  }

  function Byte32(w: bv32, i: bv6): Byte
    requires i < 4
  {
    ((w >> (8 * i)) & 0xff) as Byte
  }

  lemma Word32Bytes(b0: Byte, b1: Byte, b2: Byte, b3: Byte)
    ensures Byte32(Word32(b0, b1, b2, b3), 0) == b0
    ensures Byte32(Word32(b0, b1, b2, b3), 1) == b1
    ensures Byte32(Word32(b0, b1, b2, b3), 2) == b2
    ensures Byte32(Word32(b0, b1, b2, b3), 3) == b3
  {}

  lemma BytesWord32(w: bv32)
    ensures Word32(Byte32(w, 0), Byte32(w, 1), Byte32(w, 2), Byte32(w, 3)) == w
  {}

  /** How a block word is scrambled before it enters the state: times c, rotate, times d. */
  function Scramble32(k: bv32, c: bv32, r: bv6, d: bv32): bv32
    requires 0 < r < 32
  {
    Times32(Rotl32(Times32(k, c), r), d)
  }

  /** `c'` and `d'` are the inverses of `c` and `d`. */
  lemma Scramble32Undone(k: bv32, c: bv32, r: bv6, d: bv32, c': bv32, d': bv32)
    requires Times32(c, c') == 1 && Times32(d, d') == 1
    requires 0 < r < 32
    ensures Scramble32(Scramble32(k, c, r, d), d', 32 - r, c') == k
  {
    Times32Undone(k, c, c');
    Rotl32Undone(Times32(k, c), r);
    Times32Undone(Rotl32(Times32(k, c), r), d, d');
  }

  /** How a lane of the state absorbs a scrambled word `w`: xor, rotate, add the next lane, times 5
      plus a constant. */
  function Lane32(h: bv32, w: bv32, r: bv6, next: bv32, n: bv32): bv32
    requires 0 < r < 32
  {
    Add32(Times32(Add32(Rotl32(Xor32(h, w), r), next), 5), n)
  }

  /** The value of xor(h, w) that the lane result came from. */
  function UnLane32(h: bv32, r: bv6, next: bv32, n: bv32): bv32
    requires 0 < r < 32
  {
    Rotl32(Sub32(Times32(Sub32(h, n), 0xcccccccd), next), 32 - r)
  }

  lemma Lane32Undone(h: bv32, w: bv32, r: bv6, next: bv32, n: bv32)
    requires 0 < r < 32
    ensures UnLane32(Lane32(h, w, r, next, n), r, next, n) == Xor32(h, w)
  {
    Rotl32Undone(Xor32(h, w), r);
    Add32Undone(Rotl32(Xor32(h, w), r), next);
    Times32Undone(Add32(Rotl32(Xor32(h, w), r), next), 5, 0xcccccccd);
    Add32Undone(Times32(Add32(Rotl32(Xor32(h, w), r), next), 5), n);
  }

  /** Absorbing any word into the lane that `UnLane` found gives the result back. */
  lemma Lane32Redone(h: bv32, x: bv32, r: bv6, next: bv32, n: bv32)
    requires 0 < r < 32
    requires x == UnLane32(h, r, next, n)
    ensures Add32(Times32(Add32(Rotl32(x, r), next), 5), n) == h
  {
    assert Times32(0xcccccccd, 5) == 1;
    hide Rotl32, Times32, Add32, Sub32;
    var a := Times32(Sub32(h, n), 0xcccccccd);
    Rotl32Undone(Sub32(a, next), 32 - r);
    Add32Undone(a, next);
    Times32Undone(Sub32(h, n), 0xcccccccd, 5);
    Add32Undone(h, n);
  }

  /** How a block word is scrambled before it enters the state: times c, rotate, times d. */
  function Scramble64(k: bv64, c: bv64, r: bv7, d: bv64): bv64
    requires 0 < r < 64
  {
    Times64(Rotl64(Times64(k, c), r), d)
  }

  /** `c'` and `d'` are the inverses of `c` and `d`. */
  lemma Scramble64Undone(k: bv64, c: bv64, r: bv7, d: bv64, c': bv64, d': bv64)
    requires Times64(c, c') == 1 && Times64(d, d') == 1
    requires 0 < r < 64
    ensures Scramble64(Scramble64(k, c, r, d), d', 64 - r, c') == k
  {
    hide Rotl64, Times64;
    Times64Undone(k, c, c');
    Rotl64Undone(Times64(k, c), r);
    Times64Undone(Rotl64(Times64(k, c), r), d, d');
  }

  /** How a lane of the state absorbs a scrambled word `w`: xor, rotate, add the next lane, times 5
      plus a constant. */
  function Lane64(h: bv64, w: bv64, r: bv7, next: bv64, n: bv64): bv64
    requires 0 < r < 64
  {
    Add64(Times64(Add64(Rotl64(Xor64(h, w), r), next), 5), n)
  }

  /** The value of xor(h, w) that the lane result came from. */
  function UnLane64(h: bv64, r: bv7, next: bv64, n: bv64): bv64
    requires 0 < r < 64
  {
    Rotl64(Sub64(Times64(Sub64(h, n), 0xcccccccccccccccd), next), 64 - r)
  }

  lemma Lane64Undone(h: bv64, w: bv64, r: bv7, next: bv64, n: bv64)
    requires 0 < r < 64
    ensures UnLane64(Lane64(h, w, r, next, n), r, next, n) == Xor64(h, w)
  {
    assert Times64(5, 0xcccccccccccccccd) == 1;
    hide Rotl64, Times64, Add64, Sub64, Xor64;
    Rotl64Undone(Xor64(h, w), r);
    Add64Undone(Rotl64(Xor64(h, w), r), next);
    Times64Undone(Add64(Rotl64(Xor64(h, w), r), next), 5, 0xcccccccccccccccd);
    Add64Undone(Times64(Add64(Rotl64(Xor64(h, w), r), next), 5), n);
  }

  /** Absorbing any word into the lane that `UnLane` found gives the result back. */
  lemma Lane64Redone(h: bv64, x: bv64, r: bv7, next: bv64, n: bv64)
    requires 0 < r < 64
    requires x == UnLane64(h, r, next, n)
    ensures Add64(Times64(Add64(Rotl64(x, r), next), 5), n) == h
  {
    assert Times64(0xcccccccccccccccd, 5) == 1;
    hide Rotl64, Times64, Add64, Sub64;
    var a := Times64(Sub64(h, n), 0xcccccccccccccccd);
    Rotl64Undone(Sub64(a, next), 64 - r);
    Add64Undone(a, next);
    Times64Undone(Sub64(h, n), 0xcccccccccccccccd, 5);
    Add64Undone(h, n);
  }

  /** Folding the high bits of a word down over the low ones. */
  function Shift16(h: bv32): bv32 { h ^ (h >> 16) }
  function Shift13(h: bv32): bv32 { h ^ (h >> 13) }
  function UnShift13(h: bv32): bv32 { h ^ (h >> 13) ^ (h >> 26) }
  function Shift33(k: bv64): bv64 { k ^ (k >> 33) }

  lemma Shift16Undone(h: bv32)
    ensures Shift16(Shift16(h)) == h
  {
    assert Shift16(h ^ (h >> 16)) == h;
  }

  lemma Shift13Undone(h: bv32)
    ensures UnShift13(Shift13(h)) == h && Shift13(UnShift13(h)) == h
  {
    assert UnShift13(h ^ (h >> 13)) == h;
    assert Shift13(h ^ (h >> 13) ^ (h >> 26)) == h;
  }

  lemma Shift33Undone(k: bv64)
    ensures Shift33(Shift33(k)) == k
  {
    assert Shift33(k ^ (k >> 33)) == k;
  }

  /** The finalizers and their inverses. */
  function Fmix32(h: bv32): bv32 {
    Shift16(Times32(Shift13(Times32(Shift16(h), 0x85ebca6b)), 0xc2b2ae35))
  }

  function UnFmix32(h: bv32): bv32 {
    Shift16(Times32(UnShift13(Times32(Shift16(h), 0x7ed1b41d)), 0xa5cb9243))
  }

  function Fmix64(k: bv64): bv64 {
    Shift33(Times64(Shift33(Times64(Shift33(k), 0xff51afd7ed558ccd)), 0xc4ceb9fe1a85ec53))
  }

  function UnFmix64(k: bv64): bv64 {
    Shift33(Times64(Shift33(Times64(Shift33(k), 0x9cb4b2f8129337db)), 0x4f74430c22a54005))
  }

  /** The 32-bit finalizer is a permutation of the words. */
  lemma Fmix32Bijection(h: bv32)
    ensures UnFmix32(Fmix32(h)) == h && Fmix32(UnFmix32(h)) == h
  {
    Fmix32Forward(h);
    Fmix32Back(h);
  }

  lemma Fmix32Forward(h: bv32)
    ensures UnFmix32(Fmix32(h)) == h
  {
    Shift16Undone(h);
    Times32Undone(Shift16(h), 0x85ebca6b, 0xa5cb9243);
    Shift13Undone(Times32(Shift16(h), 0x85ebca6b));
    Times32Undone(Shift13(Times32(Shift16(h), 0x85ebca6b)), 0xc2b2ae35, 0x7ed1b41d);
    Shift16Undone(Times32(Shift13(Times32(Shift16(h), 0x85ebca6b)), 0xc2b2ae35));
  }

  lemma Fmix32Back(h: bv32)
    ensures Fmix32(UnFmix32(h)) == h
  {
    Shift16Undone(h);
    Times32Undone(Shift16(h), 0x7ed1b41d, 0xc2b2ae35);
    Shift13Undone(Times32(Shift16(h), 0x7ed1b41d));
    Times32Undone(UnShift13(Times32(Shift16(h), 0x7ed1b41d)), 0xa5cb9243, 0x85ebca6b);
    Shift16Undone(Times32(UnShift13(Times32(Shift16(h), 0x7ed1b41d)), 0xa5cb9243));
  }

  /** The 64-bit finalizer is a permutation of the words. */
  lemma Fmix64Bijection(k: bv64)
    ensures UnFmix64(Fmix64(k)) == k && Fmix64(UnFmix64(k)) == k
  {
    Fmix64Forward(k);
    Fmix64Back(k);
  }

  lemma Fmix64Forward(k: bv64)
    ensures UnFmix64(Fmix64(k)) == k
  {
    Shift33Undone(k);
    Times64Undone(Shift33(k), 0xff51afd7ed558ccd, 0x4f74430c22a54005);
    Shift33Undone(Times64(Shift33(k), 0xff51afd7ed558ccd));
    Times64Undone(Shift33(Times64(Shift33(k), 0xff51afd7ed558ccd)), 0xc4ceb9fe1a85ec53, 0x9cb4b2f8129337db);
    Shift33Undone(Times64(Shift33(Times64(Shift33(k), 0xff51afd7ed558ccd)), 0xc4ceb9fe1a85ec53));
  }

  lemma Fmix64Back(k: bv64)
    ensures Fmix64(UnFmix64(k)) == k
  {
    Shift33Undone(k);
    Times64Undone(Shift33(k), 0x9cb4b2f8129337db, 0xc4ceb9fe1a85ec53);
    Shift33Undone(Times64(Shift33(k), 0x9cb4b2f8129337db));
    Times64Undone(Shift33(Times64(Shift33(k), 0x9cb4b2f8129337db)), 0x4f74430c22a54005, 0xff51afd7ed558ccd);
    Shift33Undone(Times64(Shift33(Times64(Shift33(k), 0x9cb4b2f8129337db)), 0x4f74430c22a54005));
  }
}
