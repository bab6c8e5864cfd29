/** MurmurHash3 as the simulator computes it in 32-bit words (murmur.cc) and as the trace
    tools compute it in unbounded integers (murmur.py), and the equal-cost index taken from it. */
module Murmur {
  import opened Arith
  import opened Bits

  // ---- the hash ----

  /** Constants of the hash. */
  const C1: nat := 0xcc9e2d51
  const C2: nat := 0x1b873593

  /** Rotation in a 32-bit word: the left shift loses what leaves the word. */
  function Rotl(k: Word, n: nat): Word
    requires n <= 32
  {
    OrWord(Low32(Shl(k, n)), ShrW(k, 32 - n));
    Or(Low32(Shl(k, n)), ShrW(k, 32 - n))
  }

  function Scramble(k: Word): Word { Low32(Rotl(Low32(k * C1), 15) * C2) }

  /** Exclusive or of two words is a word. */
  function XorW(a: Word, b: Word): Word {
    XorWord(a, b);
    Xor(a, b)
  }

  function ShrW(h: Word, n: nat): Word {
    ShrSmaller(h, n);
    Shr(h, n)
  }

  /** One block mixed in. */
  function Mix(h: Word, k: Word): Word { Low32(Rotl(XorW(h, Scramble(k)), 13) * 5 + 0xe6546b64) }

  function Finish(h: Word): Word {
    var h1 := Low32(XorW(h, ShrW(h, 16)) * 0x85ebca6b);
    var h2 := Low32(XorW(h1, ShrW(h1, 13)) * 0xc2b2ae35);
    XorW(h2, ShrW(h2, 16))
  }

  /** Rotation in unbounded numbers with one mask at the end. */
  lemma RotlMasked(k: Word, n: nat)
    requires n <= 32
    ensures Low32(Or(Shl(k, n), Shr(k, 32 - n))) == Rotl(k, n)
  {
    ShrSmaller(k, 32 - n);
    OrMasked(Shl(k, n), Shr(k, 32 - n));
  }

  lemma OrMasked(a: nat, b: Word)
    ensures Low32(Or(a, b)) == Or(Low32(a), b)
  {
    OrLow32(a, b);
    LowWord(b);
  }

  lemma LowWord(b: Word)
    ensures Low32(b) == b
  {
  }

  /** The little-endian word of up to four bytes. */
  function Little(key: seq<Byte>): nat { if key == [] then 0 else key[0] + 256 * Little(key[1..]) }

  function Blocks(h: Word, key: seq<Byte>, i: nat): Word
    requires 4 * i <= |key|
  {
    if i == 0 then h
    else
      LittleWord(key[4 * (i - 1)..4 * i]);
      Mix(Blocks(h, key, i - 1), Little(key[4 * (i - 1)..4 * i]))
  }

  lemma {:induction false} LittleWord(key: seq<Byte>)
    ensures Little(key) < Pow2(8 * |key|)
    ensures |key| <= 4 ==> Little(key) < WORD
  {
    if key != [] {
      LittleWord(key[1..]);
      assert Pow2(8 * |key|) == 256 * Pow2(8 * (|key| - 1)) by { ByteMore(8 * (|key| - 1)); }
    }
    if |key| <= 4 {
      Pow2Word();
      Pow2Grows(8 * |key|, 32);
    }
  }

  lemma ByteMore(n: nat)
    ensures Pow2(n + 8) == 256 * Pow2(n)
  {
    Pow2Adds(8, n);
    assert Pow2(8) == 256;
  }

  lemma {:induction false} Pow2Grows(m: nat, n: nat)
    requires m <= n
    ensures Pow2(m) <= Pow2(n)
    decreases n
  {
    if m < n { Pow2Grows(m, n - 1); }
  }

  /** The bytes after the last whole block mixed in, if there are any. */
  function WithTail(h: Word, tail: seq<Byte>): Word
    requires |tail| <= 3
  {
    LittleWord(tail);
    if tail == [] then h else XorW(h, Scramble(Little(tail)))
  }

  function Tail(key: seq<Byte>): seq<Byte> { key[4 * (|key| / 4)..] }

  /** MurmurHash3 of `key`. */
  function Hash(key: seq<Byte>, seed: Word): Word
    requires |key| < WORD
  {
    Finish(XorW(WithTail(Blocks(seed, key, |key| / 4), Tail(key)), |key|))
  }

  lemma Quarters(n: nat, q: nat)
    requires q == n / 4
    ensures 4 * q <= n < 4 * q + 4 && (n % 4 == 0 <==> n == 4 * q) && (n <= 3 <==> q == 0)
  {
  }

  lemma NextBlock(seed: Word, key: seq<Byte>, i: nat, pos: nat)
    requires pos == 4 * i && pos + 4 <= |key|
    ensures Little(key[pos..pos + 4]) < WORD
    ensures Blocks(seed, key, i + 1) == Mix(Blocks(seed, key, i), Little(key[pos..pos + 4]))
  {
    LittleWord(key[pos..pos + 4]);
  }

  // ---- 32-bit words ----

  /** The loop over the last one to three bytes, from the last one down. */
  method TailWord(key: seq<Byte>, start: nat) returns (k: Word)
    requires start < |key| <= start + 3
    ensures k == Little(key[start..])
    ensures start == 4 * (|key| / 4) ==> k == Little(Tail(key))
  {
    k := 0;
    var i := |key| - start;
    LittleWord(key[start..]);
    while i > 0
      invariant 0 <= i <= |key| - start && k == Little(key[start + i..])
    {
      i := i - 1;
      LittleStep(key, start + i);
      LittleWord(key[start + i..]);
      k := ShiftIn(k, key[start + i]);
    }
    assert key[start + 0..] == key[start..];
  }

  lemma LittleStep(key: seq<Byte>, i: nat)
    requires i < |key|
    ensures Little(key[i..]) == key[i] + 256 * Little(key[i + 1..])
  {
    assert key[i..][1..] == key[i + 1..];
  }

  /** `k <<= 8; k |= b` */
  function ShiftIn(k: nat, b: Byte): (r: nat)
    ensures r == 256 * k + b
  {
    ShiftByte(k, b);
    Or(Shl(k, 8), b)
  }

  lemma ShiftByte(k: nat, b: nat)
    requires b < 256
    ensures Or(Shl(k, 8), b) == 256 * k + b
  {
    ShlIsProduct(k, 8);
    OrDisjoint(Shl(k, 8), k, b, 8);
    assert Pow2(8) == 256;
  }

  /** An "or" of numbers with no bits in common is their sum. */
  lemma {:induction false} OrDisjoint(x: nat, k: nat, b: nat, n: nat)
    requires x == Pow2(n) * k && b < Pow2(n)
    ensures Or(x, b) == x + b
  {
    if n > 0 && x > 0 && b > 0 {
      HalfBelow(b, n);
      var h := HalfProduct(x, k, n);
      OrDisjoint(h, k, b / 2, n - 1);
      OrOfEven(x, h, b);
    }
  }

  lemma HalfProduct(x: nat, k: nat, n: nat) returns (h: nat)
    requires n > 0 && x == Pow2(n) * k
    ensures x == 2 * h && h == Pow2(n - 1) * k
  {
    h := Pow2(n - 1) * k;
  }

  lemma OrOfEven(x: nat, h: nat, b: nat)
    requires x == 2 * h && Or(h, b / 2) == h + b / 2
    ensures Or(x, b) == x + b
  {
    OrBits(x, b);
  }

  /** One block in 32-bit words. */
  method MixInWord(h0: Word, k0: Word) returns (h: Word)
    ensures h == Mix(h0, k0)
  {
    var k: Word := ScrambleWord(k0);
    h := XorW(h0, k);
    h := Rotl(h, 13);
    h := Low32(h * 5 + 0xe6546b64);
  }

  method ScrambleWord(k0: Word) returns (k: Word)
    ensures k == Scramble(k0)
  {
    k := Low32(k0 * C1);
    k := Rotl(k, 15);
    k := Low32(k * C2);
  }

  method FinishWord(h0: Word) returns (h: Word)
    ensures h == Finish(h0)
  {
    h := XorW(h0, ShrW(h0, 16));
    h := Low32(h * 0x85ebca6b);
    h := XorW(h, ShrW(h, 13));
    h := Low32(h * 0xc2b2ae35);
    h := XorW(h, ShrW(h, 16));
  }

  method NextInWords(key: seq<Byte>, ghost seed: Word, ghost done: nat, pos: nat, h0: Word) returns (h: Word)
    requires pos == 4 * done && pos + 4 <= |key| && h0 == Blocks(seed, key, done)
    ensures h == Blocks(seed, key, done + 1)
  {
    NextBlock(seed, key, done, pos);
    h := MixInWord(h0, Little(key[pos..pos + 4]));
  }

  /** The loop over whole blocks. */
  method BlocksInWords(key: seq<Byte>, seed: Word, nblocks: nat) returns (h: Word)
    requires 4 * nblocks <= |key|
    ensures h == Blocks(seed, key, nblocks)
  {
    h := seed;
    var pos := 0;
    ghost var done: nat := 0;
    var i := nblocks;
    while i > 0
      invariant 0 <= i && done == nblocks - i && done <= nblocks
      invariant pos == 4 * done && h == Blocks(seed, key, done)
    {
      h := NextInWords(key, seed, done, pos, h);
      pos := pos + 4;
      i := i - 1;
      done := done + 1;
    }
    assert done == nblocks;
  }

  /** murmur3_32: 32-bit words that wrap around. */
  method Murmur3In32Bits(key: seq<Byte>, seed: Word) returns (hash: Word)
    requires |key| < WORD
    ensures hash == Hash(key, seed)
  {
    var h: Word := seed;
    var len := |key|;
    var n := len / 4;
    Quarters(len, n);
    if len > 3 {
      h := BlocksInWords(key, seed, n);
    }
    if len % 4 != 0 {
      var k: Word := TailWord(key, 4 * n);
      k := ScrambleWord(k);
      h := XorW(h, k);
    }
    h := XorW(h, len);
    hash := FinishWord(h);
  }

  // ---- unbounded integers ----

  /** One block in unbounded integers, masked where the source masks them. */
  method MixInInts(h0: nat, k0: nat) returns (h: nat)
    requires h0 < WORD && k0 < WORD
    ensures h == Mix(h0, k0)
  {
    var k := ScrambleInts(k0);
    h := Xor(h0, k);
    XorWord(h0, k);
    h := RotateInts(h, 13);
    h := Low32(h * 5 + 0xe6546b64);
  }

  /** `(k << n | k >> 32 - n) & 0xFFFFFFFF` */
  method RotateInts(k: nat, n: nat) returns (r: nat)
    requires k < WORD && n <= 32
    ensures r == Rotl(k, n)
  {
    RotlMasked(k, n);
    r := Low32(Or(Shl(k, n), Shr(k, 32 - n)));
  }

  method ScrambleInts(k0: nat) returns (k: nat)
    requires k0 < WORD
    ensures k == Scramble(k0)
  {
    Commutes(C1, k0);
    k := Low32(C1 * k0);
    k := RotateInts(k, 15);
    Commutes(C2, k);
    k := Low32(C2 * k);
  }

  lemma Commutes(a: nat, b: nat)
    ensures Low32(a * b) == Low32(b * a)
  {
    assert a * b == b * a;
  }

  method FinishInts(h0: nat) returns (h: nat)
    requires h0 < WORD
    ensures h == Finish(h0)
  {
    h := Xor(h0, Shr(h0, 16));
    ShrSmaller(h0, 16);
    h := Low32(h * 0x85ebca6b);
    ShrSmaller(h, 13);
    h := Xor(h, Shr(h, 13));
    h := Low32(h * 0xc2b2ae35);
    h := Xor(h, Shr(h, 16));
  }

  method NextInInts(key: seq<Byte>, ghost seed: Word, ghost done: nat, blockStart: nat, h0: nat) returns (h: nat)
    requires blockStart == 4 * done && blockStart + 4 <= |key| && h0 == Blocks(seed, key, done)
    ensures h == Blocks(seed, key, done + 1)
  {
    var k := FourBytes(key, blockStart);
    FourBytesLittle(key, blockStart);
    NextBlock(seed, key, done, blockStart);
    h := MixInInts(h0, k);
  }

  /** The loop over whole blocks. */
  method BlocksInInts(key: seq<Byte>, seed: nat, nblocks: nat) returns (h: nat)
    requires 4 * nblocks <= |key| && seed < WORD
    ensures h == Blocks(seed, key, nblocks)
  {
    h := seed;
    ghost var done: nat := 0;
    var blockStart := 0;
    while blockStart < nblocks * 4
      invariant blockStart == 4 * done && done <= nblocks && h == Blocks(seed, key, done)
    {
      h := NextInInts(key, seed, done, blockStart, h);
      blockStart := blockStart + 4;
      done := done + 1;
    }
    assert done == nblocks;
  }

  /** murmurhash3_32. */
  method Murmur3Unbounded(key: seq<Byte>, seed: nat) returns (hash: nat)
    requires |key| < WORD && seed < WORD
    ensures hash == Hash(key, seed)
  {
    var length := |key|;
    var nblocks := length / 4;
    Quarters(length, nblocks);
    var h: nat := seed;
    if length > 3 {
      h := BlocksInInts(key, seed, nblocks);
    }
    if length % 4 != 0 {
      var k := TailWord(key, 4 * nblocks);
      k := ScrambleInts(k);
      XorWord(h, k);
      h := Xor(h, k);
    }
    XorWord(h, length);
    h := Xor(h, length);
    hash := FinishInts(h);
  }

  /** The four bytes of a block put together. */
  function FourBytes(key: seq<Byte>, start: nat): nat
    requires start + 4 <= |key|
  {
    Or(Or(Or(Shl(key[start + 3], 24), Shl(key[start + 2], 16)), Shl(key[start + 1], 8)),
       key[start])
  }

  lemma FourBytesLittle(key: seq<Byte>, start: nat)
    requires start + 4 <= |key|
    ensures FourBytes(key, start) == Little(key[start..start + 4])
  {
    JoinBytes(key[start], key[start + 1], key[start + 2], key[start + 3]);
    LittleFour(key[start..start + 4], key[start], key[start + 1], key[start + 2], key[start + 3]);
  }

  lemma LittleFour(k: seq<Byte>, b0: nat, b1: nat, b2: nat, b3: nat)
    requires |k| == 4 && k[0] == b0 && k[1] == b1 && k[2] == b2 && k[3] == b3
    ensures Little(k) == b0 + 256 * b1 + 65536 * b2 + 16777216 * b3
  {
    LittleStep(k, 0);
    LittleStep(k, 1);
    LittleStep(k, 2);
    LittleStep(k, 3);
    assert k[0..] == k && k[4..] == [];
  }

  lemma JoinBytes(b0: nat, b1: nat, b2: nat, b3: nat)
    requires b0 < 256 && b1 < 256 && b2 < 256 && b3 < 256
    ensures Or(Or(Or(Shl(b3, 24), Shl(b2, 16)), Shl(b1, 8)), b0) == b0 + 256 * b1 + 65536 * b2 + 16777216 * b3
  {
    Pow2Bytes();
    ShlIsProduct(b3, 24);
    ShlIsProduct(b2, 16);
    ShlIsProduct(b1, 8);
    JoinThree(b1, b2, b3);
    JoinLow(256 * b1 + 65536 * b2 + 16777216 * b3, b1 + 256 * b2 + 65536 * b3, b0);
  }

  /** Bytes shifted to their places have no bits in common. */
  lemma JoinThree(b1: nat, b2: nat, b3: nat)
    requires b1 < 256 && b2 < 256 && b3 < 256
    ensures Or(Or(16777216 * b3, 65536 * b2), 256 * b1) == 256 * b1 + 65536 * b2 + 16777216 * b3
  {
    Pow2Bytes();
    JoinAt(16777216 * b3, b3, 65536 * b2, 24, 16777216);
    JoinAt(16777216 * b3 + 65536 * b2, 256 * b3 + b2, 256 * b1, 16, 65536);
  }

  lemma JoinLow(x: nat, k: nat, b: nat)
    requires x == 256 * k && b < 256
    ensures Or(x, b) == x + b
  {
    Pow2Bytes();
    JoinAt(x, k, b, 8, 256);
  }

  lemma JoinAt(x: nat, k: nat, b: nat, n: nat, unit: nat)
    requires unit == Pow2(n) && x == unit * k && b < unit
    ensures Or(x, b) == x + b
  {
    OrDisjoint(x, k, b, n);
  }

  lemma Pow2Bytes()
    ensures Pow2(8) == 256 && Pow2(16) == 65536 && Pow2(24) == 16777216
  {
    assert Pow2(8) == 256;
    Pow2Adds(8, 8);
    Pow2Adds(16, 8);
  }

  // ---- the index ----

  /** C++ remainder: truncates toward zero. */
  function CRemainder(a: int, b: int): int
    requires b != 0
  {
    if a >= 0 then a % b else -((-a) % b)
  }

  /** A word read as a signed 32-bit integer. */
  function Signed(w: Word): int { if w < 0x8000_0000 then w else w - WORD }

  function PositiveMod(value: int, modulus: int): int
    requires modulus > 0
  {
    CRemainder(CRemainder(value, modulus) + modulus, modulus)
  }

  /** Truncating twice gives the remainder that is never negative. */
  lemma PositiveModIsRemainder(value: int, modulus: nat)
    requires modulus > 0
    ensures PositiveMod(value, modulus) == value % modulus
  {
    var r := CRemainder(value, modulus);
    if value >= 0 {
      DivisionIs(r + modulus, modulus, 1, r);
    } else {
      var q, m := (-value) / modulus, (-value) % modulus;
      assert -value == q * modulus + m;
      if m == 0 {
        DivisionIs(r + modulus, modulus, 1, 0);
        DivisionIs(value, modulus, -q, 0);
      } else {
        DivisionIs(r + modulus, modulus, 0, modulus - m);
        Negated(value, modulus, q, m);
        DivisionIs(value, modulus, -q - 1, modulus - m);
      }
    }
  }

  lemma Negated(value: int, modulus: nat, q: int, m: int)
    requires -value == q * modulus + m
    ensures value == (-q - 1) * modulus + (modulus - m)
  {
  }

  /** The index the router uses, and the one the trace tools compute. */
  function RouterIndex(hash: Word, size: nat): int
    requires size > 0
  {
    PositiveMod(Signed(hash), size)
  }

  function ToolIndex(hash: Word, size: nat): int
    requires size > 0
  {
    (hash % size + size) % size
  }

  /** The router reads the hash as signed, so the two indices agree exactly when the top
      bit is clear or the group size divides 2^32. */
  lemma IndicesAgree(hash: Word, size: nat)
    requires size > 0
    ensures RouterIndex(hash, size) == ToolIndex(hash, size) <==> hash < 0x8000_0000 || WORD % size == 0
  {
    PositiveModIsRemainder(Signed(hash), size);
    DivisionIs(hash % size + size, size, 1, hash % size);
    if hash >= 0x8000_0000 {
      SameRemainder(hash, WORD, size);
    }
  }

  lemma SameRemainder(a: int, w: int, m: nat)
    requires m > 0
    ensures (a - w) % m == a % m <==> w % m == 0
  {
    var q, r := a / m, a % m;
    assert a == q * m + r;
    if w % m == 0 {
      var p := w / m;
      assert w == p * m;
      assert a - w == (q - p) * m + r;
      DivisionIs(a - w, m, q - p, r);
    }
    if (a - w) % m == r {
      var p := (a - w) / m;
      assert a - w == p * m + r;
      assert w == (q - p) * m + 0;
      DivisionIs(w, m, q - p, 0);
    }
  }

  /** positiveMod computes in ints: its sum stays in range for every value exactly when the
      modulus is at most 2^30. */
  lemma SumInRange(modulus: nat)
    requires 0 < modulus <= 0x7fff_ffff
    ensures modulus <= 0x4000_0000
       <==> forall value: int :: -0x8000_0000 <= value <= 0x7fff_ffff ==>
              CRemainder(value, modulus) + modulus <= 0x7fff_ffff
  {
    if modulus > 0x4000_0000 {
      DivisionIs(modulus - 1, modulus, 0, modulus - 1);
      assert CRemainder(modulus - 1, modulus) == modulus - 1;
    }
  }

  /** Both hashes of one key: they agree on all byte strings. */
  method BothHashes(key: seq<Byte>, seed: Word) returns (word: Word, unbounded: nat)
    requires |key| < WORD
    ensures word == unbounded == Hash(key, seed)
  {
    word := Murmur3In32Bits(key, seed);
    unbounded := Murmur3Unbounded(key, seed);
  }

  /** The router's and the tools' index of one key, computed by either hash, agree exactly
      when the hash has its top bit clear or the group size divides 2^32. */
  method BothIndices(key: seq<Byte>, seed: Word, size: nat) returns (router: int, tool: int)
    requires |key| < WORD && size > 0
    ensures 0 <= router < size && 0 <= tool < size
    ensures router == tool <==> Hash(key, seed) < 0x8000_0000 || WORD % size == 0
  {
    var word, unbounded := BothHashes(key, seed);
    router, tool := RouterIndex(word, size), ToolIndex(unbounded, size);
    IndicesAgree(word, size);
    PositiveModIsRemainder(Signed(word), size);
  }
}
