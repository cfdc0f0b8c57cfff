/**
 * The table-free CRC32 loops of patch 0008 (section 8 of RFC 1952; section 12.1 of
 * RFC 3720 for CRC32C) and the byte-table form they replace.
 *
 * A u32 is its 32 bits, least significant first, so that `>> 1` drops the first bit and
 * `^` works bit by bit; a u8 is its 8 bits.
 */
module Crc32 {
  import opened Iteration

  type Word = w: seq<bool> | |w| == 32 witness Zeros(32)
  type Octet = w: seq<bool> | |w| == 8 witness Zeros(8)

  function Zeros(n: nat): (z: seq<bool>)
    ensures |z| == n && forall i :: 0 <= i < n ==> !z[i]
  {
    seq(n, _ => false)
  }

  function Nibble(n: nat): seq<bool> {
    [n % 2 == 1, n / 2 % 2 == 1, n / 4 % 2 == 1, n / 8 % 2 == 1]
  }

  /** A word from its eight hexadecimal digits, most significant first. */
  function Hex(a: nat, b: nat, c: nat, d: nat, e: nat, f: nat, g: nat, h: nat): Word {
    Nibble(h) + Nibble(g) + Nibble(f) + Nibble(e) + Nibble(d) + Nibble(c) + Nibble(b) + Nibble(a)
  }

  const POLY_LE: Word := Hex(0xe, 0xd, 0xb, 0x8, 0x8, 0x3, 0x2, 0x0)
  const POLY_BE: Word := Hex(0x0, 0x4, 0xc, 0x1, 0x1, 0xd, 0xb, 0x7)
  const POLY_C: Word := Hex(0x8, 0x2, 0xf, 0x6, 0x3, 0xb, 0x7, 0x8)

  function Xor(a: Word, b: Word): (c: Word)
    ensures forall i :: 0 <= i < 32 ==> c[i] == (a[i] != b[i])
  {
    seq(32, i requires 0 <= i < 32 => a[i] != b[i])
  }

  function Xor8(a: Octet, b: Octet): (c: Octet)
    ensures forall i :: 0 <= i < 8 ==> c[i] == (a[i] != b[i])
  {
    seq(8, i requires 0 <= i < 8 => a[i] != b[i])
  }

  function Shr1(a: Word): Word { a[1..] + [false] }
  function Shr8(a: Word): Word { a[8..] + Zeros(8) }
  function Shl1(a: Word): Word { [false] + a[..31] }

  /** A byte in the low or the high end of a word. */
  function Low(b: Octet): Word { b + Zeros(24) }
  function High(b: Octet): Word { Zeros(24) + b }

  /** One bit step of the reflected forms crc32_le_base and crc32c_base. */
  function Bit(poly: Word, crc: Word): Word {
    Xor(Shr1(crc), if crc[0] then poly else Zeros(32))
  }

  function BitFn(poly: Word): (f: Word -> Word)
    ensures forall c: Word :: f(c) == Bit(poly, c)
  {
    (c: Word) => Bit(poly, c)
  }

  /** One byte: XOR it in, then eight bit steps. */
  function Byte(poly: Word, crc: Word, b: Octet): Word {
    Iter(BitFn(poly), Xor(crc, Low(b)), 8)
  }

  function ByteFn(poly: Word): (f: (Word, Octet) -> Word)
    ensures forall c: Word, b: Octet :: f(c, b) == Byte(poly, c, b)
  {
    (c: Word, b: Octet) => Byte(poly, c, b)
  }

  function Crc(poly: Word, crc: Word, p: seq<Octet>): Word {
    Fold(ByteFn(poly), crc, p)
  }

  /** One bit step of crc32_be_base. */
  function BitBe(poly: Word, crc: Word): Word {
    Xor(Shl1(crc), if crc[31] then poly else Zeros(32))
  }

  function BitBeFn(poly: Word): (f: Word -> Word)
    ensures forall c: Word :: f(c) == BitBe(poly, c)
  {
    (c: Word) => BitBe(poly, c)
  }

  function ByteBe(poly: Word, crc: Word, b: Octet): Word {
    Iter(BitBeFn(poly), Xor(crc, High(b)), 8)
  }

  function ByteBeFn(poly: Word): (f: (Word, Octet) -> Word)
    ensures forall c: Word, b: Octet :: f(c, b) == ByteBe(poly, c, b)
  {
    (c: Word, b: Octet) => ByteBe(poly, c, b)
  }

  function CrcBe(poly: Word, crc: Word, p: seq<Octet>): Word {
    Fold(ByteBeFn(poly), crc, p)
  }

  // ---- the loops of the patch ----

  /** One byte of crc32_le_base and crc32c_base: the inner loop takes eight bit steps. */
  method ByteLoop(poly: Word, crc0: Word, b: Octet) returns (crc: Word)
    ensures crc == Byte(poly, crc0, b)
  {
    crc := Repeat(BitFn(poly), Xor(crc0, Low(b)), 8);
  }

  /** crc32_le_base and crc32c_base, which differ only in the polynomial. */
  method CrcBase(poly: Word, crc0: Word, p: seq<Octet>) returns (crc: Word)
    ensures crc == Crc(poly, crc0, p)
  {
    crc := crc0;
    var k := 0;
    assert p[0..] == p;
    while k < |p|
      invariant 0 <= k <= |p| && Crc(poly, crc0, p) == Crc(poly, crc, p[k..])
    {
      assert p[k..][1..] == p[k + 1..];
      crc := ByteLoop(poly, crc, p[k]);
      k := k + 1;
    }
  }

  /** One byte of crc32_be_base. */
  method ByteLoopBe(poly: Word, crc0: Word, b: Octet) returns (crc: Word)
    ensures crc == ByteBe(poly, crc0, b)
  {
    crc := Repeat(BitBeFn(poly), Xor(crc0, High(b)), 8);
  }

  /** crc32_be_base. */
  method CrcBaseBe(poly: Word, crc0: Word, p: seq<Octet>) returns (crc: Word)
    ensures crc == CrcBe(poly, crc0, p)
  {
    crc := crc0;
    var k := 0;
    assert p[0..] == p;
    while k < |p|
      invariant 0 <= k <= |p| && CrcBe(poly, crc0, p) == CrcBe(poly, crc, p[k..])
    {
      assert p[k..][1..] == p[k + 1..];
      crc := ByteLoopBe(poly, crc, p[k]);
      k := k + 1;
    }
  }

  // ---- linearity and concatenation ----

  lemma BitLinear(poly: Word, a: Word, b: Word)
    ensures Bit(poly, Xor(a, b)) == Xor(Bit(poly, a), Bit(poly, b))
  {
  }

  lemma BitFnLinear(poly: Word)
    ensures Linear(BitFn(poly), Xor)
  {
    forall a: Word, b: Word ensures BitFn(poly)(Xor(a, b)) == Xor(BitFn(poly)(a), BitFn(poly)(b)) {
      BitLinear(poly, a, b);
    }
  }

  lemma LowXor(c: Word, d: Word, a: Octet, b: Octet)
    ensures Xor(Xor(c, d), Low(Xor8(a, b))) == Xor(Xor(c, Low(a)), Xor(d, Low(b)))
  {
  }

  lemma ByteLinear(poly: Word, c: Word, d: Word, a: Octet, b: Octet)
    ensures Byte(poly, Xor(c, d), Xor8(a, b)) == Xor(Byte(poly, c, a), Byte(poly, d, b))
  {
    BitFnLinear(poly);
    LowXor(c, d, a, b);
    IterLinear(BitFn(poly), Xor, Xor(c, Low(a)), Xor(d, Low(b)), 8);
  }

  /** XOR of seeds and of buffers is XOR of checksums. */
  lemma CrcLinear(poly: Word, c: Word, d: Word, x: seq<Octet>, y: seq<Octet>)
    requires |x| == |y|
    ensures Crc(poly, Xor(c, d), Zip(Xor8, x, y)) == Xor(Crc(poly, c, x), Crc(poly, d, y))
  {
    forall c: Word, d: Word, a: Octet, b: Octet
      ensures ByteFn(poly)(Xor(c, d), Xor8(a, b)) == Xor(ByteFn(poly)(c, a), ByteFn(poly)(d, b))
    {
      ByteLinear(poly, c, d, a, b);
    }
    FoldLinear(ByteFn(poly), Xor, Xor8, c, d, x, y);
  }

  /** The checksum of a concatenation continues from the checksum of the first part. */
  lemma CrcConcat(poly: Word, c: Word, x: seq<Octet>, y: seq<Octet>)
    ensures Crc(poly, c, x + y) == Crc(poly, Crc(poly, c, x), y)
  {
    FoldConcat(ByteFn(poly), c, x, y);
  }

  // ---- the table form ----

  /** Entry i of the generated table: eight bit steps of i. */
  function Entry(poly: Word, i: Octet): Word {
    Iter(BitFn(poly), Low(i), 8)
  }

  /** (crc >> 8) ^ table[(crc & 255) ^ b] */
  function TableByte(poly: Word, crc: Word, b: Octet): Word {
    Xor(Shr8(crc), Entry(poly, Xor8(crc[..8], b)))
  }

  function TableByteFn(poly: Word): (f: (Word, Octet) -> Word)
    ensures forall c: Word, b: Octet :: f(c, b) == TableByte(poly, c, b)
  {
    (c: Word, b: Octet) => TableByte(poly, c, b)
  }

  function TableCrc(poly: Word, crc: Word, p: seq<Octet>): Word {
    Fold(TableByteFn(poly), crc, p)
  }

  /** n zeros shifted in from above. */
  function Shr(a: Word, n: nat): Word
    requires n <= 32
  {
    a[n..] + Zeros(n)
  }

  lemma ShiftOne(poly: Word, h: Word, n: nat)
    requires 1 <= n <= 32 && !h[n - 1]
    ensures Bit(poly, Shr(h, n - 1)) == Shr(h, n)
  {
    var x, y := Shr(h, n - 1), Shr(h, n);
    assert x[0] == h[n - 1];
    forall i | 0 <= i < 32 ensures Bit(poly, x)[i] == y[i] {
      assert Shr1(x)[i] == if i < 31 then x[i + 1] else false;
    }
  }

  lemma {:induction false} ZerosShift(poly: Word, h: Word, n: nat)
    requires n <= 32 && forall i :: 0 <= i < n ==> !h[i]
    ensures Iter(BitFn(poly), h, n) == Shr(h, n)
  {
    if n == 0 {
      assert Shr(h, 0) == h;
    } else {
      ZerosShift(poly, h, n - 1);
      ShiftOne(poly, h, n);
    }
  }

  lemma SplitLow(crc: Word, b: Octet)
    ensures var h: Word := Zeros(8) + crc[8..];
      Xor(crc, Low(b)) == Xor(h, Low(Xor8(crc[..8], b))) && Shr(h, 8) == Shr8(crc)
  {
  }

  /** n bit steps of a sum whose second part has n zeros below it. */
  lemma StepsSplit(poly: Word, w: Word, h: Word, l: Word, n: nat)
    requires w == Xor(h, l) && n <= 32 && forall i :: 0 <= i < n ==> !h[i]
    ensures Iter(BitFn(poly), w, n) == Xor(Shr(h, n), Iter(BitFn(poly), l, n))
  {
    BitFnLinear(poly);
    IterLinear(BitFn(poly), Xor, h, l, n);
    ZerosShift(poly, h, n);
  }

  lemma TableByteIsByte(poly: Word, crc: Word, b: Octet)
    ensures TableByte(poly, crc, b) == Byte(poly, crc, b)
  {
    var h: Word := Zeros(8) + crc[8..];
    SplitLow(crc, b);
    StepsSplit(poly, Xor(crc, Low(b)), h, Low(Xor8(crc[..8], b)), 8);
  }

  /** The bitwise loop equals the byte-table form, for every polynomial, seed and buffer. */
  lemma TableEquivalence(poly: Word, crc: Word, p: seq<Octet>)
    ensures TableCrc(poly, crc, p) == Crc(poly, crc, p)
  {
    forall c: Word, b: Octet ensures TableByteFn(poly)(c, b) == ByteFn(poly)(c, b) { TableByteIsByte(poly, c, b); }
    FoldSame(TableByteFn(poly), ByteFn(poly), crc, p);
  }

  // ---- the two bit orders ----

  function Rev(a: Word): (r: Word)
    ensures forall i :: 0 <= i < 32 ==> r[i] == a[31 - i]
  {
    seq(32, i requires 0 <= i < 32 => a[31 - i])
  }

  function Rev8(a: Octet): (r: Octet)
    ensures forall i :: 0 <= i < 8 ==> r[i] == a[7 - i]
  {
    seq(8, i requires 0 <= i < 8 => a[7 - i])
  }

  /** The exponents below 32 of the CRC32 polynomial; bit i of the reflected word is that of x^(31-i). */
  lemma PolynomialOfCrc32(i: nat)
    requires i < 32
    ensures POLY_LE[i] <==> 31 - i in {26, 23, 22, 16, 12, 11, 10, 8, 7, 5, 4, 2, 1, 0}
  {
  }

  /** In the unreflected word bit i is that of x^i. */
  lemma PolynomialOfCrc32Be(i: nat)
    requires i < 32
    ensures POLY_BE[i] <==> i in {26, 23, 22, 16, 12, 11, 10, 8, 7, 5, 4, 2, 1, 0}
  {
  }

  lemma PolynomialsMirror()
    ensures Rev(POLY_LE) == POLY_BE
  {
    forall i | 0 <= i < 32 ensures Rev(POLY_LE)[i] == POLY_BE[i] {
      PolynomialOfCrc32(31 - i);
      PolynomialOfCrc32Be(i);
    }
  }

  lemma BitMirror(poly: Word, c: Word)
    ensures Rev(Bit(poly, c)) == BitBe(Rev(poly), Rev(c))
  {
    assert Rev(Shr1(c)) == Shl1(Rev(c));
    assert Rev(Zeros(32)) == Zeros(32);
  }

  lemma LowMirror(c: Word, b: Octet)
    ensures Rev(Xor(c, Low(b))) == Xor(Rev(c), High(Rev8(b)))
  {
  }

  lemma ByteMirror(poly: Word, c: Word, b: Octet)
    ensures Rev(Byte(poly, c, b)) == ByteBe(Rev(poly), Rev(c), Rev8(b))
  {
    LowMirror(c, b);
    forall a: Word ensures Rev(BitFn(poly)(a)) == BitBeFn(Rev(poly))(Rev(a)) { BitMirror(poly, a); }
    IterMap(BitFn(poly), BitBeFn(Rev(poly)), Rev, Xor(c, Low(b)), 8);
  }

  lemma CrcMirror(poly: Word, c: Word, p: seq<Octet>)
    ensures CrcBe(Rev(poly), Rev(c), Map(Rev8, p)) == Rev(Crc(poly, c, p))
  {
    forall c: Word, b: Octet ensures Rev(ByteFn(poly)(c, b)) == ByteBeFn(Rev(poly))(Rev(c), Rev8(b)) {
      ByteMirror(poly, c, b);
    }
    FoldMap(ByteFn(poly), ByteBeFn(Rev(poly)), Rev, Rev8, c, p);
  }

  /** crc32_be on bit-reversed seed and bytes is the bit reversal of crc32_le. */
  lemma BeMirrorsLe(poly: Word, polyBe: Word, c: Word, p: seq<Octet>)
    requires poly == POLY_LE && polyBe == POLY_BE
    ensures CrcBe(polyBe, Rev(c), Map(Rev8, p)) == Rev(Crc(poly, c, p))
  {
    PolynomialsMirror();
    CrcMirror(poly, c, p);
  }

  // ---- division bit by bit ----

  /** The exponents of the CRC32C (Castagnoli) polynomial, reflected in the same way. */
  lemma PolynomialOfCrc32c(i: nat)
    requires i < 32
    ensures POLY_C[i] <==> 31 - i in {28, 27, 26, 25, 23, 22, 20, 19, 18, 14, 13, 11, 10, 9, 8, 6, 0}
  {
  }

  /** One step of division by the polynomial: multiply by x, take in one message bit at the top, reduce. */
  function SerialBit(poly: Word, c: Word, m: bool): (r: Word)
    ensures forall i :: 0 <= i < 32 ==> r[i] == ((i < 31 && c[i + 1]) != ((c[0] != m) && poly[i]))
  {
    Xor(Shr1(c), if c[0] != m then poly else Zeros(32))
  }

  /** The remainder after the message bits ms, taken one at a time. */
  function Serial(poly: Word, c: Word, ms: seq<bool>): Word
    decreases |ms|
  {
    if ms == [] then c else Serial(poly, SerialBit(poly, c, ms[0]), ms[1..])
  }

  function Place(ms: seq<bool>): Word
    requires |ms| <= 32
  {
    ms + Zeros(32 - |ms|)
  }

  lemma PlaceStep(poly: Word, c: Word, ms: seq<bool>)
    requires 1 <= |ms| <= 32
    ensures Bit(poly, Xor(c, Place(ms))) == Xor(SerialBit(poly, c, ms[0]), Place(ms[1..]))
  {
    var x := Xor(c, Place(ms));
    var y := Xor(SerialBit(poly, c, ms[0]), Place(ms[1..]));
    forall i | 0 <= i < 32 ensures Bit(poly, x)[i] == y[i] {
      assert Shr1(x)[i] == (i < 31 && x[i + 1]);
      assert Place(ms[1..])[i] == (i < 31 && Place(ms)[i + 1]);
    }
  }

  /** Bits put in together and then stepped over are bits taken one at a time. */
  lemma {:induction false} SerialIsIter(poly: Word, c: Word, ms: seq<bool>)
    requires |ms| <= 32
    ensures Iter(BitFn(poly), Xor(c, Place(ms)), |ms|) == Serial(poly, c, ms)
    decreases |ms|
  {
    if ms == [] {
      assert Xor(c, Place(ms)) == c;
    } else {
      IterFirst(BitFn(poly), Xor(c, Place(ms)), |ms|);
      PlaceStep(poly, c, ms);
      SerialIsIter(poly, SerialBit(poly, c, ms[0]), ms[1..]);
    }
  }

  lemma ByteIsSerial(poly: Word, c: Word, b: Octet)
    ensures Byte(poly, c, b) == Serial(poly, c, b)
  {
    assert Low(b) == Place(b);
    SerialIsIter(poly, c, b);
  }

  function Bits(p: seq<Octet>): seq<bool> {
    if p == [] then [] else p[0] + Bits(p[1..])
  }

  lemma {:induction false} SerialConcat(poly: Word, c: Word, x: seq<bool>, y: seq<bool>)
    ensures Serial(poly, c, x + y) == Serial(poly, Serial(poly, c, x), y)
    decreases |x|
  {
    if x == [] {
      assert x + y == y;
    } else {
      assert (x + y)[1..] == x[1..] + y && (x + y)[0] == x[0];
      SerialConcat(poly, SerialBit(poly, c, x[0]), x[1..], y);
    }
  }

  /** The checksum is the remainder of dividing the message, low bit of each byte first, bit by bit. */
  lemma {:induction false} CrcIsDivision(poly: Word, c: Word, p: seq<Octet>)
    ensures Crc(poly, c, p) == Serial(poly, c, Bits(p))
    decreases |p|
  {
    if p != [] {
      ByteIsSerial(poly, c, p[0]);
      CrcIsDivision(poly, Byte(poly, c, p[0]), p[1..]);
      SerialConcat(poly, c, p[0], Bits(p[1..]));
    }
  }

  // ---- what a checksum detects ----

  lemma BitInjective(poly: Word, a: Word, b: Word)
    requires poly[31] && Bit(poly, a) == Bit(poly, b)
    ensures a == b
  {
    var x, y := Bit(poly, a), Bit(poly, b);
    assert x[31] == a[0] && y[31] == b[0];
    forall i | 1 <= i < 32 ensures a[i] == b[i] {
      assert x[i - 1] == (a[i] != (a[0] && poly[i - 1]));
      assert y[i - 1] == (b[i] != (b[0] && poly[i - 1]));
    }
  }

  lemma ByteInjective(poly: Word, a: Word, b: Word, c: Octet, d: Octet)
    requires poly[31] && Xor(a, Low(c)) != Xor(b, Low(d))
    ensures Byte(poly, a, c) != Byte(poly, b, d)
  {
    forall x: Word, y: Word | BitFn(poly)(x) == BitFn(poly)(y) ensures x == y { BitInjective(poly, x, y); }
    IterInjective(BitFn(poly), Xor(a, Low(c)), Xor(b, Low(d)), 8);
  }

  lemma XorLowDiffers(c: Word, a: Word, x: Octet, y: Octet)
    ensures x != y ==> Xor(c, Low(x)) != Xor(c, Low(y))
    ensures c != a ==> Xor(c, Low(x)) != Xor(a, Low(x))
  {
    var u, v, w := Xor(c, Low(x)), Xor(c, Low(y)), Xor(a, Low(x));
    if x != y {
      var i :| 0 <= i < 8 && x[i] != y[i];
      assert u[i] != v[i];
    }
    if c != a {
      var i :| 0 <= i < 32 && c[i] != a[i];
      assert u[i] != w[i];
    }
  }

  lemma ByteStepInjective(poly: Word)
    requires poly[31]
    ensures forall a: Word, a': Word, b: Octet :: ByteFn(poly)(a, b) == ByteFn(poly)(a', b) ==> a == a'
  {
    forall a: Word, a': Word, b: Octet | ByteFn(poly)(a, b) == ByteFn(poly)(a', b) ensures a == a' {
      if a != a' {
        XorLowDiffers(a, a', b, b);
        ByteInjective(poly, a, a', b, b);
      }
    }
  }

  /** Up to four bytes laid out in a word, first byte lowest. */
  function Pack(bs: seq<Octet>): (w: Word)
    requires |bs| <= 4
    ensures forall i :: 8 * |bs| <= i < 32 ==> !w[i]
  {
    if bs == [] then Zeros(32) else bs[0] + Pack(bs[1..])[..24]
  }

  lemma PackSplit(c: Word, b: Octet, rest: seq<Octet>)
    requires |rest| <= 3
    ensures var h: Word := Zeros(8) + Pack(rest)[..24];
      && Xor(c, Pack([b] + rest)) == Xor(h, Xor(c, Low(b)))
      && Shr(h, 8) == Pack(rest)
  {
    assert ([b] + rest)[1..] == rest;
    assert Pack([b] + rest) == b + Pack(rest)[..24];
  }

  lemma XorSwap(a: Word, b: Word)
    ensures Xor(a, b) == Xor(b, a)
  {
  }

  lemma CrcHead(poly: Word, c: Word, bs: seq<Octet>)
    requires bs != []
    ensures Crc(poly, c, bs) == Crc(poly, Byte(poly, c, bs[0]), bs[1..])
  {
  }

  lemma AbsorbNone(poly: Word, c: Word)
    ensures Crc(poly, c, []) == Iter(BitFn(poly), Xor(c, Pack([])), 0)
  {
    assert Xor(c, Zeros(32)) == c;
  }

  /** Bytes taken one at a time equal the same bytes XORed in at once. */
  lemma {:induction false} Absorb(poly: Word, c: Word, bs: seq<Octet>, n: nat)
    requires |bs| <= 4 && n == 8 * |bs|
    ensures Crc(poly, c, bs) == Iter(BitFn(poly), Xor(c, Pack(bs)), n)
    decreases |bs|
  {
    if |bs| == 0 {
      AbsorbNone(poly, c);
    } else {
      var c', rest, m := Byte(poly, c, bs[0]), bs[1..], n - 8;
      AbsorbHead(poly, c, bs, m);
      Absorb(poly, c', rest, m);
      CrcHead(poly, c, bs);
    }
  }

  lemma AbsorbHead(poly: Word, c: Word, bs: seq<Octet>, n: nat)
    requires 1 <= |bs| <= 4 && n == 8 * (|bs| - 1)
    ensures Iter(BitFn(poly), Xor(c, Pack(bs)), n + 8)
      == Iter(BitFn(poly), Xor(Byte(poly, c, bs[0]), Pack(bs[1..])), n)
  {
    assert bs == [bs[0]] + bs[1..];
    PackSplit(c, bs[0], bs[1..]);
    AbsorbOne(poly, c, bs, Zeros(8) + Pack(bs[1..])[..24], Xor(c, Low(bs[0])), n);
  }

  lemma AbsorbOne(poly: Word, c: Word, bs: seq<Octet>, h: Word, l: Word, n: nat)
    requires 1 <= |bs| <= 4 && n == 8 * (|bs| - 1)
    requires Xor(c, Pack(bs)) == Xor(h, l) && l == Xor(c, Low(bs[0]))
    requires Shr(h, 8) == Pack(bs[1..]) && forall i :: 0 <= i < 8 ==> !h[i]
    ensures Iter(BitFn(poly), Xor(c, Pack(bs)), n + 8)
      == Iter(BitFn(poly), Xor(Byte(poly, c, bs[0]), Pack(bs[1..])), n)
  {
    StepsSplit(poly, Xor(c, Pack(bs)), h, l, 8);
    XorSwap(Pack(bs[1..]), Byte(poly, c, bs[0]));
    IterAdd(BitFn(poly), Xor(c, Pack(bs)), 8, n);
  }

  lemma {:induction false} PackInjective(u: seq<Octet>, v: seq<Octet>)
    requires |u| == |v| <= 4 && u != v
    ensures Pack(u) != Pack(v)
  {
    var p, q := Pack(u), Pack(v);
    if u[0] != v[0] {
      assert p[..8] == u[0] && q[..8] == v[0];
    } else {
      PackInjective(u[1..], v[1..]);
      assert p[8..] == Pack(u[1..])[..24] && q[8..] == Pack(v[1..])[..24];
      assert Pack(u[1..]) == Pack(u[1..])[..24] + Zeros(8);
      assert Pack(v[1..]) == Pack(v[1..])[..24] + Zeros(8);
    }
  }

  lemma WindowDiffers(poly: Word, c: Word, u: seq<Octet>, v: seq<Octet>)
    requires poly[31] && |u| == |v| <= 4 && u != v
    ensures Crc(poly, c, u) != Crc(poly, c, v)
  {
    Absorb(poly, c, u, 8 * |u|);
    Absorb(poly, c, v, 8 * |v|);
    PackInjective(u, v);
    XorDiffers(c, Pack(u), Pack(v));
    forall x: Word, y: Word | BitFn(poly)(x) == BitFn(poly)(y) ensures x == y { BitInjective(poly, x, y); }
    IterInjective(BitFn(poly), Xor(c, Pack(u)), Xor(c, Pack(v)), 8 * |u|);
  }

  lemma XorDiffers(c: Word, a: Word, b: Word)
    requires a != b
    ensures Xor(c, a) != Xor(c, b)
  {
    var i :| 0 <= i < 32 && a[i] != b[i];
    assert Xor(c, a)[i] != Xor(c, b)[i];
  }

  /**
   * Burst detection, for a polynomial whose top bit is set (0xedb88320 and 0x82f63b78):
   * buffers that differ only inside a window of at most four bytes, anywhere and in any
   * way, have different checksums.
   */
  lemma DetectsBurst(poly: Word, seed: Word, pre: seq<Octet>, u: seq<Octet>, v: seq<Octet>, post: seq<Octet>)
    requires poly[31] && |u| == |v| <= 4 && u != v
    ensures Crc(poly, seed, pre + u + post) != Crc(poly, seed, pre + v + post)
  {
    var c := Crc(poly, seed, pre);
    CrcConcat(poly, seed, pre + u, post);
    CrcConcat(poly, seed, pre, u);
    CrcConcat(poly, seed, pre + v, post);
    CrcConcat(poly, seed, pre, v);
    WindowDiffers(poly, c, u, v);
    ByteStepInjective(poly);
    FoldInjective(ByteFn(poly), Crc(poly, c, u), Crc(poly, c, v), post);
  }

  lemma TopBits()
    ensures POLY_LE[31] && POLY_C[31]
  {
  }

  /** Both polynomials of the source: damage confined to four consecutive bytes is always seen. */
  lemma SourceDetectsBurst(poly: Word, seed: Word, pre: seq<Octet>, u: seq<Octet>, v: seq<Octet>, post: seq<Octet>)
    requires poly == POLY_LE || poly == POLY_C
    requires |u| == |v| <= 4 && u != v
    ensures Crc(poly, seed, pre + u + post) != Crc(poly, seed, pre + v + post)
  {
    TopBits();
    DetectsBurst(poly, seed, pre, u, v, post);
  }
}
