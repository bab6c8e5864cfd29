/** Published values of MurmurHash3_x86_32, computed step by step: the hash is that hash. */
module MurmurValues {
  import opened Arith
  import opened Bits
  import opened Murmur

  // ---- exclusive or of words given by their digits ----

  /** The number with these bits, the highest first. */
  function Binary(bits: seq<nat>): nat {
    if bits == [] then 0 else 2 * Binary(bits[..|bits| - 1]) + bits[|bits| - 1]
  }

  predicate XorBit(x: nat, y: nat, z: nat) { x < 2 && y < 2 && z < 2 && (x + y) % 2 == z }

  predicate XorBits(a: seq<nat>, b: seq<nat>, r: seq<nat>) {
    |a| == |b| == |r| && forall i :: 0 <= i < |r| ==> XorBit(a[i], b[i], r[i])
  }

  lemma XorStep(a: nat, b: nat, r: nat)
    requires (a + b) % 2 == r % 2 && Xor(a / 2, b / 2) == r / 2
    ensures Xor(a, b) == r
  {
  }

  lemma Doubled(a: nat, x: nat)
    requires x < 2
    ensures (2 * a + x) / 2 == a && (2 * a + x) % 2 == x
  {
  }

  lemma Parity(a: nat, b: nat, x: nat, y: nat)
    ensures (2 * a + x + (2 * b + y)) % 2 == (x + y) % 2
  {
  }

  /** One more bit. */
  lemma XorMoreBit(a: nat, b: nat, r: nat, x: nat, y: nat, z: nat)
    requires Xor(a, b) == r && XorBit(x, y, z)
    ensures Xor(2 * a + x, 2 * b + y) == 2 * r + z
  {
    Doubled(a, x);
    Doubled(b, y);
    Doubled(r, z);
    Parity(a, b, x, y);
    XorStep(2 * a + x, 2 * b + y, 2 * r + z);
  }

  lemma {:induction false} XorNumbers(a: seq<nat>, b: seq<nat>, r: seq<nat>)
    requires XorBits(a, b, r)
    ensures Xor(Binary(a), Binary(b)) == Binary(r)
  {
    if r != [] {
      var n := |r| - 1;
      XorNumbers(a[..n], b[..n], r[..n]);
      XorMoreBit(Binary(a[..n]), Binary(b[..n]), Binary(r[..n]), a[n], b[n], r[n]);
    }
  }

  function Bit(d: bv4, mask: bv4): (b: nat)
    ensures b < 2
  {
    if d & mask == mask then 1 else 0
  }

  function BitsOf(d: bv4): (bits: seq<nat>)
    ensures |bits| == 4
  {
    [Bit(d, 8), Bit(d, 4), Bit(d, 2), Bit(d, 1)]
  }

  lemma DigitBits(d: bv4)
    ensures d as nat == 2 * (2 * (2 * Bit(d, 8) + Bit(d, 4)) + Bit(d, 2)) + Bit(d, 1)
  {
  }

  lemma XorMasked8(x: bv4, y: bv4)
    ensures XorBit(Bit(x, 8), Bit(y, 8), Bit(x ^ y, 8)) && XorBit(Bit(x, 4), Bit(y, 4), Bit(x ^ y, 4))
  {
  }

  lemma XorMasked2(x: bv4, y: bv4)
    ensures XorBit(Bit(x, 2), Bit(y, 2), Bit(x ^ y, 2)) && XorBit(Bit(x, 1), Bit(y, 1), Bit(x ^ y, 1))
  {
  }

  lemma XorDigit(x: bv4, y: bv4)
    ensures XorBits(BitsOf(x), BitsOf(y), BitsOf(x ^ y))
  {
    XorMasked8(x, y);
    XorMasked2(x, y);
    FourBits(BitsOf(x), BitsOf(y), BitsOf(x ^ y));
  }

  lemma FourBits(a: seq<nat>, b: seq<nat>, r: seq<nat>)
    requires |a| == |b| == |r| == 4
    requires XorBit(a[0], b[0], r[0]) && XorBit(a[1], b[1], r[1])
    requires XorBit(a[2], b[2], r[2]) && XorBit(a[3], b[3], r[3])
    ensures XorBits(a, b, r)
  {
  }

  /** All bits of hexadecimal digits, and their number, the highest first. */
  function AllBits(d: seq<bv4>): (bits: seq<nat>)
    ensures |bits| == 4 * |d|
  {
    if d == [] then [] else AllBits(d[..|d| - 1]) + BitsOf(d[|d| - 1])
  }

  function Hex(d: seq<bv4>): nat { if d == [] then 0 else 16 * Hex(d[..|d| - 1]) + d[|d| - 1] as nat }

  lemma BinaryMore(bits: seq<nat>, x: nat)
    ensures Binary(bits + [x]) == 2 * Binary(bits) + x
  {
    assert (bits + [x])[..|bits|] == bits;
  }

  lemma BinaryDigit(bits: seq<nat>, d: bv4)
    ensures Binary(bits + BitsOf(d)) == 16 * Binary(bits) + d as nat
  {
    var b1 := bits + [Bit(d, 8)];
    var b2 := b1 + [Bit(d, 4)];
    var b3 := b2 + [Bit(d, 2)];
    assert bits + BitsOf(d) == b3 + [Bit(d, 1)];
    BinaryMore(bits, Bit(d, 8));
    BinaryMore(b1, Bit(d, 4));
    BinaryMore(b2, Bit(d, 2));
    BinaryMore(b3, Bit(d, 1));
    DigitBits(d);
  }

  lemma {:induction false} HexBits(d: seq<bv4>)
    ensures Binary(AllBits(d)) == Hex(d)
  {
    if d != [] {
      HexBits(d[..|d| - 1]);
      BinaryDigit(AllBits(d[..|d| - 1]), d[|d| - 1]);
    }
  }

  lemma JoinBits(a: seq<nat>, b: seq<nat>, r: seq<nat>, x: seq<nat>, y: seq<nat>, z: seq<nat>)
    requires XorBits(a, b, r) && XorBits(x, y, z)
    ensures XorBits(a + x, b + y, r + z)
  {
  }

  predicate XorDigits(a: seq<bv4>, b: seq<bv4>, r: seq<bv4>) {
    |a| == |b| == |r| && forall i :: 0 <= i < |r| ==> r[i] == a[i] ^ b[i]
  }

  lemma {:induction false} XorOfDigits(a: seq<bv4>, b: seq<bv4>, r: seq<bv4>)
    requires XorDigits(a, b, r)
    ensures XorBits(AllBits(a), AllBits(b), AllBits(r))
  {
    if r != [] {
      var n := |r| - 1;
      XorOfDigits(a[..n], b[..n], r[..n]);
      XorDigit(a[n], b[n]);
      JoinBits(AllBits(a[..n]), AllBits(b[..n]), AllBits(r[..n]), BitsOf(a[n]), BitsOf(b[n]), BitsOf(r[n]));
    }
  }

  lemma XorHex(a: seq<bv4>, b: seq<bv4>, r: seq<bv4>)
    requires XorDigits(a, b, r)
    ensures Xor(Hex(a), Hex(b)) == Hex(r)
  {
    XorOfDigits(a, b, r);
    XorNumbers(AllBits(a), AllBits(b), AllBits(r));
    HexBits(a);
    HexBits(b);
    HexBits(r);
  }

  /** The eight digits of a word, the highest first. */
  type Digits = d: seq<bv4> | |d| == 8 witness [0, 0, 0, 0, 0, 0, 0, 0]

  function AsWord(d: Digits): Word {
    HexBelow(d);
    Hex(d)
  }

  lemma {:induction false} HexLess(d: seq<bv4>)
    ensures Hex(d) < Pow2(4 * |d|)
  {
    if d != [] {
      HexLess(d[..|d| - 1]);
      Pow2Adds(4, 4 * (|d| - 1));
      assert Pow2(4) == 16;
    }
  }

  lemma HexBelow(d: Digits)
    ensures Hex(d) < WORD
  {
    HexLess(d);
    Pow2Word();
  }

  lemma WordIs(d: Digits, x: seq<nat>)
    requires |x| == 8 && forall i :: 0 <= i < 8 ==> x[i] == d[i] as nat
    ensures AsWord(d)
         == 16 * (16 * (16 * (16 * (16 * (16 * (16 * x[0] + x[1]) + x[2]) + x[3]) + x[4]) + x[5]) + x[6]) + x[7]
  {
    HexTo(d, 7, x[7]);
    HexTo(d, 6, x[6]);
    HexTo(d, 5, x[5]);
    HexTo(d, 4, x[4]);
    FirstFour(d, x);
  }

  lemma FirstFour(d: Digits, x: seq<nat>)
    requires |x| == 8 && forall i :: 0 <= i < 8 ==> x[i] == d[i] as nat
    ensures Hex(d[..4]) == 16 * (16 * (16 * x[0] + x[1]) + x[2]) + x[3]
  {
    HexTo(d, 3, x[3]);
    HexTo(d, 2, x[2]);
    HexTo(d, 1, x[1]);
    HexTo(d, 0, x[0]);
  }

  lemma HexTo(d: Digits, k: nat, x: nat)
    requires k < 8 && x == d[k] as nat
    ensures Hex(d[..k + 1]) == 16 * Hex(d[..k]) + x
    ensures d[..8] == d && Hex(d[..0]) == 0
  {
    assert d[..k + 1][..k] == d[..k];
  }

  lemma WordOf(d: Digits)
    ensures AsWord(d) == 16 * (16 * (16 * (16 * (16 * (16 * (16 * (d[0] as nat) + d[1] as nat) + d[2] as nat)
                         + d[3] as nat) + d[4] as nat) + d[5] as nat) + d[6] as nat) + d[7] as nat
  {
    WordIs(d, [d[0] as nat, d[1] as nat, d[2] as nat, d[3] as nat, d[4] as nat, d[5] as nat, d[6] as nat, d[7] as nat]);
  }

  function XorD(a: Digits, b: Digits): (r: Digits)
    ensures XorDigits(a, b, r)
  {
    seq(8, i requires 0 <= i < 8 => a[i] ^ b[i])
  }

  lemma XorWords(a: Digits, b: Digits)
    ensures XorW(AsWord(a), AsWord(b)) == AsWord(XorD(a, b))
  {
    XorHex(a, b, XorD(a, b));
  }

  // ---- shifts and rotations as arithmetic ----

  lemma {:induction false} ShrIsQuotient(k: nat, n: nat)
    ensures Shr(k, n) == k / Pow2(n)
  {
    Split(k, n);
    DivisionIs(k, Pow2(n), Shr(k, n), Low(k, n));
  }

  /** Rotation: the low bits move up by a factor of `up`, the high ones down by `down`. */
  function Turned(k: Word, up: nat, down: nat): nat
    requires down > 0
  {
    k * up % WORD + k / down
  }

  lemma Factors(q: nat, u: nat, d: nat)
    requires d > 0 && q * d < u * d
    ensures q < u
  {
    assert (q - u) * d == q * d - u * d;
  }

  /** High bits `q` and low bits `r` of a word. */
  lemma Parts(k: Word, up: nat, down: nat) returns (q: nat, r: nat)
    requires up > 0 && down > 0 && up * down == WORD
    ensures q == k / down && q < up && r < down && k * up % WORD == up * r && up * r < WORD
  {
    q, r := k / down, k % down;
    assert k == q * down + r;
    Factors(q, up, down);
    assert up * r < up * down;
    assert k * up == q * (up * down) + up * r;
    DivisionIs(k * up, WORD, q, up * r);
  }

  lemma RotlIs(k: Word, n: nat, up: nat, down: nat)
    requires 0 < n < 32 && up == Pow2(n) && down == Pow2(32 - n) && up * down == WORD
    ensures Rotl(k, n) == Turned(k, up, down)
  {
    ShlIsProduct(k, n);
    ShrIsQuotient(k, 32 - n);
    var q, r := Parts(k, up, down);
    OrDisjoint(up * r, r, q, n);
  }

  lemma Powers()
    ensures Pow2(13) == 0x2000 && Pow2(15) == 0x8000 && Pow2(16) == 0x1_0000
    ensures Pow2(17) == 0x2_0000 && Pow2(19) == 0x8_0000
  {
    assert Pow2(5) == 32 && Pow2(3) == 8;
    Pow2Adds(5, 5);
    Pow2Adds(10, 3);
    Pow2Adds(10, 5);
    assert Pow2(16) == 2 * Pow2(15);
    assert Pow2(17) == 2 * Pow2(16);
    Pow2Adds(16, 3);
  }

  // ---- the steps of the hash ----

  lemma RotlBy15(k: Word)
    ensures Rotl(k, 15) == k * 0x8000 % WORD + k / 0x2_0000
  {
    Powers();
    RotlIs(k, 15, 0x8000, 0x2_0000);
  }

  lemma RotlBy13(k: Word)
    ensures Rotl(k, 13) == k * 0x2000 % WORD + k / 0x8_0000
  {
    Powers();
    RotlIs(k, 13, 0x2000, 0x8_0000);
  }

  predicate Scrambled(k: Word, m: Word, t: Word, s: Word) {
    m == k * 0xcc9e2d51 % WORD && t == m * 0x8000 % WORD + m / 0x2_0000 && s == t * 0x1b873593 % WORD
  }

  lemma ScrambleIs(k: Word, m: Word, t: Word, s: Word)
    requires Scrambled(k, m, t, s)
    ensures Scramble(k) == s
  {
    RotlBy15(m);
  }

  predicate Mixed(x: Word, u: Word, r: Word) {
    u == x * 0x2000 % WORD + x / 0x8_0000 && r == (u * 5 + 0xe6546b64) % WORD
  }

  lemma MixIs(h: Word, k: Word, m: Word, t: Word, s: Word, x: Word, u: Word, r: Word)
    requires Scrambled(k, m, t, s) && XorW(h, s) == x && Mixed(x, u, r)
    ensures Mix(h, k) == r
  {
    ScrambleIs(k, m, t, s);
    RotlBy13(x);
  }

  /** The high part of `h`. */
  predicate Shifted(h: Digits, t: Digits, down: nat)
    requires down > 0
  {
    AsWord(t) == AsWord(h) / down
  }

  predicate Folded(h: Digits, t: Digits, down: nat, factor: nat, r: Digits)
    requires down > 0
  {
    Shifted(h, t, down) && AsWord(r) == AsWord(XorD(h, t)) * factor % WORD
  }

  /** The words of the last step. */
  datatype Finishing = Finishing(h: Digits, t: Digits, h1: Digits, t1: Digits, h2: Digits, t2: Digits)

  predicate Finishes(f: Finishing, r: Word) {
    && Folded(f.h, f.t, 0x1_0000, 0x85ebca6b, f.h1) && Folded(f.h1, f.t1, 0x2000, 0xc2b2ae35, f.h2)
    && Shifted(f.h2, f.t2, 0x1_0000) && AsWord(XorD(f.h2, f.t2)) == r
  }

  lemma FinishIs(f: Finishing, r: Word)
    requires Finishes(f, r)
    ensures Finish(AsWord(f.h)) == r
  {
    Powers();
    ShrIsQuotient(AsWord(f.h), 16);
    ShrIsQuotient(AsWord(f.h1), 13);
    ShrIsQuotient(AsWord(f.h2), 16);
    XorWords(f.h, f.t);
    XorWords(f.h1, f.t1);
    XorWords(f.h2, f.t2);
  }

  // ---- published values ----

  lemma BlockScramble(k: Word, s: Word) returns (m: Word, t: Word)
    requires k == 0x61 + 256 * (0x61 + 256 * (0x61 + 256 * 0x61)) && s == 0xF6D8F77F
    ensures Scrambled(k, m, t, s)
  {
    m, t := 0x53CBDCB1, 0xEE58A9E5;
    DivisionIs(k * 0xcc9e2d51, WORD, 0x4DD5C4F0, m);
    DivisionIs(m * 0x8000, WORD, 0x29E5, 0xEE588000);
    DivisionIs(m, 0x2_0000, 0x29E5, 0x1DCB1);
    DivisionIs(t * 0x1b873593, WORD, 0x19A13C8D, s);
  }

  lemma BlockMix(x: Word, r: Word) returns (u: Word)
    requires x == 0x619F45F3 && r == 0x720C8863
    ensures Mixed(x, u, r)
  {
    u := 0xE8BE6C33;
    DivisionIs(x * 0x2000, WORD, 0xC33, 0xE8BE6000);
    DivisionIs(x, 0x8_0000, 0xC33, 0x745F3);
    DivisionIs(u * 5 + 0xe6546b64, WORD, 0x5, r);
  }

  lemma BlockWords(h: Digits, s: Digits, r: Digits)
    requires h == [0x9, 0x7, 0x4, 0x7, 0xb, 0x2, 0x8, 0xc]
    requires s == [0xf, 0x6, 0xd, 0x8, 0xf, 0x7, 0x7, 0xf]
    requires r == [0x7, 0x2, 0x0, 0xc, 0x8, 0x8, 0x6, 0x3]
    ensures AsWord(h) == 0x9747B28C && AsWord(s) == 0xF6D8F77F
    ensures AsWord(XorD(h, s)) == 0x619F45F3 && AsWord(r) == 0x720C8863
  {
    WordOf(h);
    WordOf(s);
    WordOf(XorD(h, s));
    WordOf(r);
  }

  lemma BlockLength(r: Digits, l: Digits)
    requires r == [0x7, 0x2, 0x0, 0xc, 0x8, 0x8, 0x6, 0x3]
    requires l == [0x0, 0x0, 0x0, 0x0, 0x0, 0x0, 0x0, 0x4]
    ensures XorD(r, l) == [0x7, 0x2, 0x0, 0xc, 0x8, 0x8, 0x6, 0x7] && AsWord(l) == 4
  {
    WordOf(l);
  }

  lemma BlockFold1(h: Digits, t: Digits, r: Digits)
    requires h == [0x7, 0x2, 0x0, 0xc, 0x8, 0x8, 0x6, 0x7]
    requires t == [0x0, 0x0, 0x0, 0x0, 0x7, 0x2, 0x0, 0xc]
    requires r == [0x6, 0x0, 0x3, 0xe, 0x1, 0x8, 0xb, 0x9]
    ensures Folded(h, t, 0x10000, 0x85EBCA6B, r)
  {
    WordOf(h);
    WordOf(t);
    WordOf(XorD(h, t));
    WordOf(r);
  }

  lemma BlockFold2(h: Digits, t: Digits, r: Digits)
    requires h == [0x6, 0x0, 0x3, 0xe, 0x1, 0x8, 0xb, 0x9]
    requires t == [0x0, 0x0, 0x0, 0x3, 0x0, 0x1, 0xf, 0x0]
    requires r == [0x5, 0xa, 0x9, 0x7, 0xd, 0xa, 0x1, 0xd]
    ensures Folded(h, t, 0x2000, 0xC2B2AE35, r)
  {
    WordOf(h);
    WordOf(t);
    WordOf(XorD(h, t));
    WordOf(r);
  }

  lemma BlockFold3(h: Digits, t: Digits)
    requires h == [0x5, 0xa, 0x9, 0x7, 0xd, 0xa, 0x1, 0xd]
    requires t == [0x0, 0x0, 0x0, 0x0, 0x5, 0xa, 0x9, 0x7]
    ensures Shifted(h, t, 0x10000) && AsWord(XorD(h, t)) == 0x5A97808A
  {
    WordOf(h);
    WordOf(t);
    WordOf(XorD(h, t));
  }

  lemma BlockFinish(h: Digits) returns (f: Finishing)
    requires h == [0x7, 0x2, 0x0, 0xc, 0x8, 0x8, 0x6, 0x7]
    ensures f.h == h && Finishes(f, 0x5A97808A)
  {
    f := Finishing(h, [0x0, 0x0, 0x0, 0x0, 0x7, 0x2, 0x0, 0xc],
                   [0x6, 0x0, 0x3, 0xe, 0x1, 0x8, 0xb, 0x9], [0x0, 0x0, 0x0, 0x3, 0x0, 0x1, 0xf, 0x0],
                   [0x5, 0xa, 0x9, 0x7, 0xd, 0xa, 0x1, 0xd], [0x0, 0x0, 0x0, 0x0, 0x5, 0xa, 0x9, 0x7]);
    BlockFold1(f.h, f.t, f.h1);
    BlockFold2(f.h1, f.t1, f.h2);
    BlockFold3(f.h2, f.t2);
  }

  /** One block and nothing else. */
  lemma BlockRun(k: Word) returns (h: Digits, m: Word, t: Word, s: Digits, u: Word, r: Digits, l: Digits, f: Finishing)
    requires k == 0x61 + 256 * (0x61 + 256 * (0x61 + 256 * 0x61))
    ensures Scrambled(k, m, t, AsWord(s)) && Mixed(AsWord(XorD(h, s)), u, AsWord(r)) && AsWord(h) == 0x9747B28C
    ensures AsWord(l) == 4 && f.h == XorD(r, l) && Finishes(f, 0x5A97808A)
  {
    h, s, r := [0x9, 0x7, 0x4, 0x7, 0xb, 0x2, 0x8, 0xc], [0xf, 0x6, 0xd, 0x8, 0xf, 0x7, 0x7, 0xf],
               [0x7, 0x2, 0x0, 0xc, 0x8, 0x8, 0x6, 0x3];
    l := [0x0, 0x0, 0x0, 0x0, 0x0, 0x0, 0x0, 0x4];
    BlockWords(h, s, r);
    m, t := BlockScramble(k, AsWord(s));
    u := BlockMix(AsWord(XorD(h, s)), AsWord(r));
    BlockLength(r, l);
    f := BlockFinish(XorD(r, l));
  }

  /** One whole block: "aaaa" hashed from the seed 0x9747B28C. */
  lemma HashOfBlock(key: seq<Byte>, seed: Word)
    requires |key| == 4 && (forall i :: 0 <= i < 4 ==> key[i] == 0x61) && seed == 0x9747B28C
    ensures Hash(key, seed) == 0x5A97808A
  {
    var k := OneBlock(key, seed);
    var h, m, t, s, u, r, l, f := BlockRun(k);
    XorWords(h, s);
    MixIs(AsWord(h), k, m, t, AsWord(s), AsWord(XorD(h, s)), u, AsWord(r));
    XorWords(r, l);
    FinishIs(f, 0x5A97808A);
  }

  /** A key of one block. */
  lemma OneBlock(key: seq<Byte>, seed: Word) returns (k: Word)
    requires |key| == 4
    ensures k == key[0] as nat + 256 * (key[1] as nat + 256 * (key[2] as nat + 256 * key[3] as nat))
    ensures Hash(key, seed) == Finish(XorW(Mix(seed, k), 4))
  {
    LittleOf(key);
    LittleWord(key);
    k := Little(key);
    assert key[0..4] == key && Tail(key) == [];
    NextBlock(seed, key, 0, 0);
  }

  lemma LittleOf(key: seq<Byte>)
    ensures |key| == 4 ==>
      Little(key) == key[0] as nat + 256 * (key[1] as nat + 256 * (key[2] as nat + 256 * key[3] as nat))
    ensures |key| == 3 ==> Little(key) == key[0] as nat + 256 * (key[1] as nat + 256 * key[2] as nat)
  {
    assert key[0..] == key && key[|key|..] == [];
    if |key| == 4 {
      LittleStep(key, 0);
      LittleStep(key, 1);
      LittleStep(key, 2);
      LittleStep(key, 3);
    }
    if |key| == 3 {
      LittleStep(key, 0);
      LittleStep(key, 1);
      LittleStep(key, 2);
    }
  }

  lemma TailWord(s: Digits)
    requires s == [0x1, 0x7, 0xa, 0x6, 0x6, 0x3, 0x6, 0xe]
    ensures AsWord(s) == 0x17A6636E
  {
    WordOf(s);
  }

  lemma TailScramble(k: Word, s: Word) returns (m: Word, t: Word)
    requires k == 0x21 + 256 * (0x43 + 256 * 0x65) && s == 0x17A6636E
    ensures Scrambled(k, m, t, s)
  {
    m, t := 0xA7350A71, 0x8538D39A;
    DivisionIs(k * 0xcc9e2d51, WORD, 0x50F00F, m);
    DivisionIs(m * 0x8000, WORD, 0x539A, 0x85388000);
    DivisionIs(m, 0x2_0000, 0x539A, 0x10A71);
    DivisionIs(t * 0x1b873593, WORD, 0xE535B2A, s);
  }

  lemma TailLength(r: Digits, l: Digits)
    requires r == [0x1, 0x7, 0xa, 0x6, 0x6, 0x3, 0x6, 0xe]
    requires l == [0x0, 0x0, 0x0, 0x0, 0x0, 0x0, 0x0, 0x3]
    ensures XorD(r, l) == [0x1, 0x7, 0xa, 0x6, 0x6, 0x3, 0x6, 0xd] && AsWord(l) == 3
  {
    WordOf(l);
  }

  lemma TailFold1(h: Digits, t: Digits, r: Digits)
    requires h == [0x1, 0x7, 0xa, 0x6, 0x6, 0x3, 0x6, 0xd]
    requires t == [0x0, 0x0, 0x0, 0x0, 0x1, 0x7, 0xa, 0x6]
    requires r == [0xe, 0x8, 0x1, 0x3, 0xf, 0xe, 0xd, 0x9]
    ensures Folded(h, t, 0x10000, 0x85EBCA6B, r)
  {
    WordOf(h);
    WordOf(t);
    WordOf(XorD(h, t));
    WordOf(r);
  }

  lemma TailFold2(h: Digits, t: Digits, r: Digits)
    requires h == [0xe, 0x8, 0x1, 0x3, 0xf, 0xe, 0xd, 0x9]
    requires t == [0x0, 0x0, 0x0, 0x7, 0x4, 0x0, 0x9, 0xf]
    requires r == [0x7, 0xe, 0x4, 0xa, 0xf, 0x8, 0x7, 0xe]
    ensures Folded(h, t, 0x2000, 0xC2B2AE35, r)
  {
    WordOf(h);
    WordOf(t);
    WordOf(XorD(h, t));
    WordOf(r);
  }

  lemma TailFold3(h: Digits, t: Digits)
    requires h == [0x7, 0xe, 0x4, 0xa, 0xf, 0x8, 0x7, 0xe]
    requires t == [0x0, 0x0, 0x0, 0x0, 0x7, 0xe, 0x4, 0xa]
    ensures Shifted(h, t, 0x10000) && AsWord(XorD(h, t)) == 0x7E4A8634
  {
    WordOf(h);
    WordOf(t);
    WordOf(XorD(h, t));
  }

  lemma TailFinish(h: Digits) returns (f: Finishing)
    requires h == [0x1, 0x7, 0xa, 0x6, 0x6, 0x3, 0x6, 0xd]
    ensures f.h == h && Finishes(f, 0x7E4A8634)
  {
    f := Finishing(h, [0x0, 0x0, 0x0, 0x0, 0x1, 0x7, 0xa, 0x6],
                   [0xe, 0x8, 0x1, 0x3, 0xf, 0xe, 0xd, 0x9], [0x0, 0x0, 0x0, 0x7, 0x4, 0x0, 0x9, 0xf],
                   [0x7, 0xe, 0x4, 0xa, 0xf, 0x8, 0x7, 0xe], [0x0, 0x0, 0x0, 0x0, 0x7, 0xe, 0x4, 0xa]);
    TailFold1(f.h, f.t, f.h1);
    TailFold2(f.h1, f.t1, f.h2);
    TailFold3(f.h2, f.t2);
  }

  /** A tail and nothing else. */
  lemma TailRun(k: Word) returns (m: Word, t: Word, s: Digits, l: Digits, f: Finishing)
    requires k == 0x21 + 256 * (0x43 + 256 * 0x65)
    ensures Scrambled(k, m, t, AsWord(s)) && AsWord(l) == 3 && f.h == XorD(s, l) && Finishes(f, 0x7E4A8634)
  {
    s, l := [0x1, 0x7, 0xa, 0x6, 0x6, 0x3, 0x6, 0xe], [0x0, 0x0, 0x0, 0x0, 0x0, 0x0, 0x0, 0x3];
    TailWord(s);
    m, t := TailScramble(k, AsWord(s));
    TailLength(s, l);
    f := TailFinish(XorD(s, l));
  }

  /** A tail of three bytes: 0x21, 0x43, 0x65 hashed from the seed 0. */
  lemma HashOfTail(key: seq<Byte>, seed: Word)
    requires |key| == 3 && key[0] == 0x21 && key[1] == 0x43 && key[2] == 0x65 && seed == 0
    ensures Hash(key, seed) == 0x7E4A8634
  {
    var k := OneTail(key, seed);
    var m, t, s, l, f := TailRun(k);
    ScrambleIs(k, m, t, AsWord(s));
    XorWithNothing(seed, AsWord(s));
    XorWords(s, l);
    FinishIs(f, 0x7E4A8634);
  }

  lemma XorWithNothing(a: Word, b: Word)
    requires a == 0
    ensures XorW(a, b) == b
  {
  }

  /** A key shorter than a block. */
  lemma OneTail(key: seq<Byte>, seed: Word) returns (k: Word)
    requires |key| == 3
    ensures k == key[0] as nat + 256 * (key[1] as nat + 256 * key[2] as nat)
    ensures Hash(key, seed) == Finish(XorW(XorW(seed, Scramble(k)), 3))
  {
    LittleOf(key);
    LittleWord(key);
    k := Little(key);
    assert Tail(key) == key;
  }
}
