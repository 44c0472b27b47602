/** The key hash of the Bloom filters (tables/bloom_filter.cpp): FNV-1a, a mixer and double hashing, modulo 2^64. */
module Hashing {
  import opened Text

  const FNV_OFFSET: int := 1469598103934665603
  const FNV_PRIME: int := 1099511628211

  /** Bitwise exclusive or of two unsigned numbers of at most `width` bits. */
  function Xor(a: nat, b: nat, width: nat): (r: nat) {
    if width == 0 then 0
    else 2 * Xor(a / 2, b / 2, width - 1) + (if a % 2 == b % 2 then 0 else 1)
  }

  function Wrap64(v: nat): uint64 {
    v % TWO_64
  }

  function FnvStep(hash: uint64, byte: nat): uint64 {
    Wrap64(Wrap64(Xor(hash, byte, 64)) * FNV_PRIME)
  }

  /** fnv1a64: each character counts as one unsigned byte. */
  function Fnv1a(value: string): uint64 {
    if value == "" then FNV_OFFSET
    else FnvStep(Fnv1a(value[..|value| - 1]), value[|value| - 1] as int % 256)
  }

  function Mix64(value: uint64): uint64 {
    var v0 := Wrap64(value + 0x9e3779b97f4a7c15);
    var v1 := Wrap64(Wrap64(Xor(v0, v0 / 0x4000_0000, 64)) * 0xbf58476d1ce4e5b9);
    var v2 := Wrap64(Wrap64(Xor(v1, v1 / 0x800_0000, 64)) * 0x94d049bb133111eb);
    Wrap64(Xor(v2, v2 / 0x8000_0000, 64))
  }

  /** The i-th bit position of a key: (h1 + i * h2) modulo 2^64, modulo the filter size. */
  function Combine(h1: uint64, h2: uint64, i: nat, bitCount: nat): (idx: nat)
    requires bitCount > 0
    ensures idx < bitCount
  {
    Wrap64(h1 + i * h2) % bitCount
  }

  function Index(key: string, i: nat, bitCount: nat): (idx: nat)
    requires bitCount > 0
    ensures idx < bitCount
  {
    Combine(Fnv1a(key), Mix64(Fnv1a(key)), i, bitCount)
  }

  // ---------- keys that differ in one character ----------

  function Pow2(k: nat): (p: nat)
    ensures p > 0
  {
    if k == 0 then 1 else 2 * Pow2(k - 1)
  }

  lemma {:induction false} Pow2Adds(a: nat, b: nat)
    ensures Pow2(a + b) == Pow2(a) * Pow2(b)
  {
    if a > 0 {
      Pow2Adds(a - 1, b);
      assert 2 * (Pow2(a - 1) * Pow2(b)) == (2 * Pow2(a - 1)) * Pow2(b);
    }
  }

  lemma SixtyFourBits()
    ensures Pow2(64) == TWO_64
  {
    assert Pow2(8) == 256;
    Pow2Adds(8, 8);
    Pow2Adds(16, 16);
    Pow2Adds(32, 32);
  }

  lemma ModHalf(b: nat, m: nat)
    requires m > 0
    ensures b % (2 * m) == 2 * ((b / 2) % m) + b % 2
  {
    var q, r := (b / 2) / m, (b / 2) % m;
    assert b == 2 * (q * m + r) + b % 2;
    ModOf(b, 2 * m, q, 2 * r + b % 2);
  }

  lemma ModOf(b: nat, m: nat, q: nat, r: nat)
    requires m > 0 && b == q * m + r && r < m
    ensures b % m == r
  {
    var d := b / m - q;
    assert b == m * (b / m) + b % m;
    assert d * m == r - b % m;
    MultipleIsLarge(d, m);
  }

  lemma MultipleIsLarge(d: int, m: nat)
    ensures d >= 1 ==> d * m >= m
    ensures d <= -1 ==> d * m <= -(m as int)
  {}

  lemma {:induction false} XorCancels(a: nat, b: nat, c: nat, width: nat)
    requires Xor(a, b, width) == Xor(a, c, width)
    ensures b % Pow2(width) == c % Pow2(width)
  {
    if width > 0 {
      XorCancels(a / 2, b / 2, c / 2, width - 1);
      ModHalf(b, Pow2(width - 1));
      ModHalf(c, Pow2(width - 1));
    }
  }

  lemma {:induction false} XorCommutes(a: nat, b: nat, width: nat)
    ensures Xor(a, b, width) == Xor(b, a, width)
  {
    if width > 0 {
      XorCommutes(a / 2, b / 2, width - 1);
    }
  }

  lemma {:induction false} XorBelow(a: nat, b: nat, width: nat)
    ensures Xor(a, b, width) < Pow2(width)
  {
    if width > 0 {
      XorBelow(a / 2, b / 2, width - 1);
    }
  }

  lemma DividedInto(a: nat, d: nat)
    requires d > 0
    ensures a == (a / d) * d + a % d
  {}

  lemma Difference(x: nat, y: nat)
    requires x % TWO_64 == y % TWO_64
    ensures x - y == (x / TWO_64 - y / TWO_64) * TWO_64
  {}

  lemma DivisibleBelow(d: int, k: int)
    requires d == k * TWO_64 && -TWO_64 < d < TWO_64
    ensures d == 0
  {}

  lemma Rearranged(d: int, factor: int, inverse: int, over: int, k: int)
    requires d * factor == k * TWO_64 && inverse * factor == 1 + over * TWO_64
    ensures d == (inverse * k - d * over) * TWO_64
  {
    assert inverse * (d * factor) == d * (inverse * factor);
    assert inverse * (k * TWO_64) == (inverse * k) * TWO_64;
    assert d * (1 + over * TWO_64) == d + (d * over) * TWO_64;
  }

  /** Multiplying by a number that has an inverse modulo 2^64 keeps different numbers apart. */
  lemma FactorCancels(x: uint64, y: uint64, factor: nat, inverse: nat, over: nat)
    requires inverse * factor == 1 + over * TWO_64
    requires (x * factor) % TWO_64 == (y * factor) % TWO_64
    ensures x == y
  {
    var d, k := x - y, (x * factor) / TWO_64 - (y * factor) / TWO_64;
    Difference(x * factor, y * factor);
    assert d * factor == x * factor - y * factor;
    Rearranged(d, factor, inverse, over, k);
    DivisibleBelow(d, inverse * k - d * over);
  }

  lemma {:induction false} XorSeparates(h: uint64, b: nat, g: uint64, c: nat)
    requires b < 256 && c < 256 && Wrap64(Xor(h, b, 64)) == Wrap64(Xor(g, c, 64))
    ensures h == g ==> b == c
    ensures b == c ==> h == g
  {
    hide Xor, Pow2;
    SixtyFourBits();
    XorBelow(h, b, 64);
    XorBelow(g, c, 64);
    if h == g {
      XorCancels(h, b, c, 64);
    }
    if b == c {
      XorCommutes(h, b, 64);
      XorCommutes(g, b, 64);
      XorCancels(b, h, g, 64);
    }
  }

  lemma FnvStepSeparates(h: uint64, b: nat, g: uint64, c: nat)
    requires b < 256 && c < 256 && FnvStep(h, b) == FnvStep(g, c)
    ensures h == g ==> b == c
    ensures b == c ==> h == g
  {
    hide Xor;
    var x, y := Wrap64(Xor(h, b, 64)), Wrap64(Xor(g, c, 64));
    FactorCancels(x, y, FNV_PRIME, 14_886_173_955_864_302_971, 887_285_111_055);
    XorSeparates(h, b, g, c);
  }

  /** Two keys of bytes that differ in exactly one place never have the same hash. */
  lemma {:induction false} OneCharacterApart(s: string, t: string, i: nat)
    requires i < |s| == |t| && s[i] as int % 256 != t[i] as int % 256
    requires forall k :: 0 <= k < |s| && k != i ==> s[k] == t[k]
    ensures Fnv1a(s) != Fnv1a(t)
  {
    hide FnvStep;
    var n := |s| - 1;
    if i == n {
      assert s[..n] == t[..n];
    } else {
      OneCharacterApart(s[..n], t[..n], i);
    }
    if Fnv1a(s) == Fnv1a(t) {
      FnvStepSeparates(Fnv1a(s[..n]), s[n] as int % 256, Fnv1a(t[..n]), t[n] as int % 256);
    }
  }

  // ---------- the mixer ----------

  /** The bits of x from the k-th on. */
  function Shift(x: nat, k: nat): nat {
    if k == 0 then x else Shift(x / 2, k - 1)
  }

  lemma {:induction false} ShiftHalf(x: nat, k: nat)
    ensures Shift(x / 2, k) == Shift(x, k) / 2
  {
    if k > 0 {
      ShiftHalf(x / 2, k - 1);
    }
  }

  lemma DoubledDivisor(x: nat, m: nat)
    requires m > 0
    ensures (x / 2) / m == x / (2 * m)
  {
    var q, r := (x / 2) / m, (x / 2) % m;
    DividedInto(x / 2, m);
    assert x == q * (2 * m) + (2 * r + x % 2);
    QuotientOf(x, 2 * m, q, 2 * r + x % 2);
  }

  lemma QuotientOf(x: nat, m: nat, q: nat, r: nat)
    requires m > 0 && x == q * m + r && r < m
    ensures x / m == q
  {
    var d := x / m - q;
    DividedInto(x, m);
    assert d * m == r - x % m;
    MultipleIsLarge(d, m);
  }

  lemma {:induction false} ShiftDivides(x: nat, k: nat)
    ensures Shift(x, k) == x / Pow2(k)
  {
    if k > 0 {
      ShiftDivides(x / 2, k - 1);
      DoubledDivisor(x, Pow2(k - 1));
    }
  }

  /** A number is determined by its exclusive or with itself shifted right. */
  lemma {:induction false} ShiftedXorCancels(x: nat, y: nat, k: nat, width: nat)
    requires k > 0 && x < Pow2(width) && y < Pow2(width)
    requires Xor(x, Shift(x, k), width) == Xor(y, Shift(y, k), width)
    ensures x == y
  {
    if width > 0 {
      ShiftHalf(x, k);
      ShiftHalf(y, k);
      ShiftedXorCancels(x / 2, y / 2, k, width - 1);
    }
  }

  lemma {:induction false} UnshiftedApart(x: uint64, y: uint64, k: nat)
    requires k > 0 && Wrap64(Xor(x, Shift(x, k), 64)) == Wrap64(Xor(y, Shift(y, k), 64))
    ensures x == y
  {
    hide Xor, Pow2, Shift;
    SixtyFourBits();
    XorBelow(x, Shift(x, k), 64);
    XorBelow(y, Shift(y, k), 64);
    ShiftedXorCancels(x, y, k, 64);
  }

  lemma Shifts()
    ensures Pow2(27) == 0x800_0000 && Pow2(30) == 0x4000_0000 && Pow2(31) == 0x8000_0000
  {
    assert Pow2(9) == 512;
    Pow2Adds(9, 9);
    Pow2Adds(9, 18);
    assert Pow2(30) == 8 * Pow2(27);
  }

  lemma {:induction false} Mixed(x: uint64, y: uint64, k: nat, factor: nat, inverse: nat, over: nat)
    requires k > 0 && inverse * factor == 1 + over * TWO_64
    requires Wrap64(Wrap64(Xor(x, Shift(x, k), 64)) * factor) == Wrap64(Wrap64(Xor(y, Shift(y, k), 64)) * factor)
    ensures x == y
  {
    hide Xor, Shift;
    FactorCancels(Wrap64(Xor(x, Shift(x, k), 64)), Wrap64(Xor(y, Shift(y, k), 64)), factor, inverse, over);
    UnshiftedApart(x, y, k);
  }

  lemma {:induction false} Shifted(x: uint64)
    ensures Shift(x, 27) == x / 0x800_0000 && Shift(x, 30) == x / 0x4000_0000 && Shift(x, 31) == x / 0x8000_0000
  {
    hide Shift;
    Shifts();
    ShiftDivides(x, 27);
    ShiftDivides(x, 30);
    ShiftDivides(x, 31);
  }

  /** Different hashes have different mixed hashes. */
  lemma Mix64Injective(x: uint64, y: uint64)
    requires Mix64(x) == Mix64(y)
    ensures x == y
  {
    hide Xor, Shift;
    var x0, y0: uint64 := (x + 0x9e3779b97f4a7c15) % TWO_64, (y + 0x9e3779b97f4a7c15) % TWO_64;
    var x1, y1 := Wrap64(Wrap64(Xor(x0, x0 / 0x4000_0000, 64)) * 0xbf58476d1ce4e5b9),
                  Wrap64(Wrap64(Xor(y0, y0 / 0x4000_0000, 64)) * 0xbf58476d1ce4e5b9);
    var x2, y2 := Wrap64(Wrap64(Xor(x1, x1 / 0x800_0000, 64)) * 0x94d049bb133111eb),
                  Wrap64(Wrap64(Xor(y1, y1 / 0x800_0000, 64)) * 0x94d049bb133111eb);
    assert Wrap64(Xor(x2, x2 / 0x8000_0000, 64)) == Wrap64(Xor(y2, y2 / 0x8000_0000, 64));
    hide Mix64, Wrap64;
    Shifted(x0);
    Shifted(y0);
    Shifted(x1);
    Shifted(y1);
    Shifted(x2);
    Shifted(y2);
    UnshiftedApart(x2, y2, 31);
    Mixed(x1, y1, 27, 0x94d049bb133111eb, 3_573_116_690_164_977_347, 2_077_064_247_507_883_091);
    Mixed(x0, y0, 30, 0xbf58476d1ce4e5b9, 10_871_156_337_175_269_513, 8_125_545_580_553_827_436);
  }

  // ---------- the sequence of positions ----------

  lemma Distribute(q: nat, e: nat, u: nat, d: nat)
    ensures q * (e * d) + u * d == (q * e + u) * d
  {
    assert q * (e * d) == (q * e) * d;
  }

  lemma ModTwice(a: nat, m: nat, d: nat)
    requires d > 0 && m > 0 && m % d == 0
    ensures (a % m) % d == a % d
  {
    var q, r, e := a / m, a % m, m / d;
    DividedInto(a, m);
    DividedInto(m, d);
    DividedInto(r, d);
    Distribute(q, e, r / d, d);
    ModOf(a, d, q * e + r / d, r % d);
  }

  lemma ModSum(a: nat, b: nat, d: nat)
    requires d > 0
    ensures (a % d + b) % d == (a + b) % d
  {
    var s := a % d + b;
    assert a == d * (a / d) + a % d && s == d * (s / d) + s % d;
    assert a + b == (a / d + s / d) * d + s % d;
    ModOf(a + b, d, a / d + s / d, s % d);
  }

  /** A key's first position is its hash, and in a filter whose size divides 2^64 each next one is the mixed hash on. */
  lemma {:induction false} PositionsProgress(key: string, i: nat, bitCount: nat)
    requires bitCount > 0
    ensures Index(key, 0, bitCount) == Fnv1a(key) % bitCount
    ensures TWO_64 % bitCount == 0 ==>
              Index(key, i + 1, bitCount) == (Index(key, i, bitCount) + Mix64(Fnv1a(key))) % bitCount
  {
    var h1, h2 := Fnv1a(key), Mix64(Fnv1a(key));
    hide Fnv1a, Mix64;
    if TWO_64 % bitCount == 0 {
      ModTwice(h1 + i * h2, TWO_64, bitCount);
      ModTwice(h1 + (i + 1) * h2, TWO_64, bitCount);
      ModSum(h1 + i * h2, h2, bitCount);
      assert h1 + (i + 1) * h2 == h1 + i * h2 + h2;
    }
  }
}
