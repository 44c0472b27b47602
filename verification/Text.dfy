/** Decimal text: what std::to_string prints and strtol/strtoull read back, and names built from it. */
module Text {

  datatype Option<+T> = None | Some(value: T)

  const INT64_MAX: int := 0x7fff_ffff_ffff_ffff
  const INT64_MIN: int := -0x8000_0000_0000_0000
  const TWO_32: int := 0x1_0000_0000
  const TWO_64: int := 0x1_0000_0000_0000_0000

  type int32 = i: int | -0x8000_0000 <= i < 0x8000_0000
  type uint64 = n: int | 0 <= n < 0x1_0000_0000_0000_0000

  predicate IsDigit(c: char) {
    '0' <= c <= '9'
  }

  function DigitChar(d: nat): (c: char)
    requires d < 10
    ensures IsDigit(c) && DigitOf(c) == d
  {
    "0123456789"[d]
  }

  function DigitOf(c: char): (d: nat)
    requires IsDigit(c)
    ensures d < 10
  {
    c as int - '0' as int
  }

  predicate AllDigits(s: string) {
    forall i :: 0 <= i < |s| ==> IsDigit(s[i])
  }

  function DigitsValue(s: string): nat
    requires AllDigits(s)
  {
    if s == [] then 0 else DigitsValue(s[..|s| - 1]) * 10 + DigitOf(s[|s| - 1])
  }

  /** std::to_string of an unsigned value. */
  function NatToString(n: nat): (s: string)
    ensures s != [] && AllDigits(s)
  {
    if n < 10 then [DigitChar(n)] else NatToString(n / 10) + [DigitChar(n % 10)]
  }

  /** std::to_string of a signed value. */
  function IntToString(i: int): string {
    if i < 0 then "-" + NatToString(-i) else NatToString(i)
  }

  lemma {:induction false} NatRoundTrip(n: nat)
    ensures DigitsValue(NatToString(n)) == n
  {
    if n < 10 {
      assert NatToString(n)[..0] == [];
    } else {
      NatRoundTrip(n / 10);
      assert NatToString(n)[..|NatToString(n)| - 1] == NatToString(n / 10);
    }
  }

  predicate IsSpace(c: char) {
    c == ' ' || 9 <= c as int <= 13
  }

  /** token.c_str() as a C function sees it: the characters before the first NUL. */
  function CString(s: string): string {
    if s == [] || s[0] as int == 0 then [] else [s[0]] + CString(s[1..])
  }

  function SkipSpace(s: string): string {
    if s != [] && IsSpace(s[0]) then SkipSpace(s[1..]) else s
  }

  datatype Signed = Signed(negative: bool, digits: string)

  /** strtol and strtoull accept the whole token exactly when this is Some: spaces, one optional sign, digits. */
  function ReadSigned(token: string): (r: Option<Signed>)
    ensures r.Some? ==> AllDigits(r.value.digits)
  {
    var s := SkipSpace(CString(token));
    var signed := s != [] && (s[0] == '-' || s[0] == '+');
    var body := if signed then s[1..] else s;
    if body == [] || !AllDigits(body) then None else Some(Signed(signed && s[0] == '-', body))
  }

  /** static_cast<int> of a 64-bit value. */
  function ToInt32(v: int): int32 {
    var low := v % TWO_32;
    if low < 0x8000_0000 then low else low - TWO_32
  }

  function Saturate64(v: int): int {
    if v > INT64_MAX then INT64_MAX else if v < INT64_MIN then INT64_MIN else v
  }

  /** parse_int: strtol saturates at 64 bits, the cast to int then keeps the low 32. */
  function ParseInt(token: string, fallback: int32): int32 {
    match ReadSigned(token)
    case None => fallback
    case Some(Signed(neg, digits)) =>
      var v: int := DigitsValue(digits);
      ToInt32(Saturate64(if neg then -v else v))
  }

  /** parse_uint64: strtoull saturates, and negates modulo 2^64 after a minus sign. */
  function ParseUint64(token: string): Option<uint64> {
    match ReadSigned(token)
    case None => None
    case Some(Signed(neg, digits)) =>
      var v := DigitsValue(digits);
      Some(if v >= TWO_64 then TWO_64 - 1 else if neg then (TWO_64 - v) % TWO_64 else v)
  }

  lemma {:induction false} CStringOfClean(s: string)
    requires forall i :: 0 <= i < |s| ==> s[i] as int != 0
    ensures CString(s) == s
  {
    if s != [] {
      CStringOfClean(s[1..]);
    }
  }

  lemma {:induction false} ReadPrinted(i: int)
    ensures ReadSigned(IntToString(i)) == Some(Signed(i < 0, NatToString(if i < 0 then -i else i)))
  {
    var s := IntToString(i);
    CStringOfClean(s);
    assert !IsSpace(s[0]);
    if i < 0 {
      assert s[1..] == NatToString(-i);
    }
  }

  /** Any int that is printed is read back, through the 64-bit saturation and the 32-bit cast. */
  lemma IntRoundTrip(i: int32, fallback: int32)
    ensures ParseInt(IntToString(i), fallback) == i
  {
    var n: int := i;
    ReadPrinted(n);
    NatRoundTrip(if n < 0 then -n else n);
    Int32Unchanged(i);
  }

  lemma Int32Unchanged(i: int32)
    ensures ToInt32(Saturate64(i)) == i
  {}

  lemma {:induction false} Uint64RoundTrip(n: uint64)
    ensures ParseUint64(NatToString(n)) == Some(n)
  {
    ReadPrinted(n);
    NatRoundTrip(n);
  }

  function Pow10(k: nat): nat {
    if k == 0 then 1 else 10 * Pow10(k - 1)
  }

  lemma {:induction false} Pow10Adds(a: nat, b: nat)
    ensures Pow10(a + b) == Pow10(a) * Pow10(b)
  {
    if a > 0 {
      Pow10Adds(a - 1, b);
      assert 10 * (Pow10(a - 1) * Pow10(b)) == (10 * Pow10(a - 1)) * Pow10(b);
    }
  }

  lemma {:induction false} DigitCount(n: nat, k: nat)
    requires k > 0 && n < Pow10(k)
    ensures |NatToString(n)| <= k
  {
    if n >= 10 {
      assert k > 1 by { assert Pow10(1) == 10 * Pow10(0); }
      DigitCount(n / 10, k - 1);
    }
  }

  /** A 64-bit value prints with at most twenty digits. */
  lemma {:induction false} Uint64Digits(n: uint64)
    ensures |NatToString(n)| <= 20
  {
    assert Pow10(10) == 10_000_000_000;
    Pow10Adds(10, 10);
    DigitCount(n, 20);
  }

  /** An int prints with at most ten digits and a sign. */
  lemma Int32Digits(i: int32)
    ensures |IntToString(i)| <= 11
  {
    var n: int := i;
    assert Pow10(10) == 10_000_000_000;
    DigitCount(if n < 0 then -n else n, 10);
  }

  lemma {:induction false} NatToStringInjective(a: nat, b: nat)
    requires NatToString(a) == NatToString(b)
    ensures a == b
  {
    NatRoundTrip(a);
    NatRoundTrip(b);
  }

  /** A string splits in only one way around a separator that the tail does not contain. */
  lemma {:induction false} LastSeparator(a: string, b: string, x: string, y: string, sep: char)
    requires sep !in x && sep !in y
    requires a + [sep] + x == b + [sep] + y
    ensures a == b && x == y
  {
    var s := a + [sep] + x;
    forall i | |a| < i < |s| ensures s[i] != sep { assert s[i] == x[i - |a| - 1]; }
    forall i | |b| < i < |s| ensures s[i] != sep { assert s[i] == y[i - |b| - 1]; }
    assert s[|a|] == sep && s[|b|] == sep;
    assert |a| == |b|;
    assert s[..|a|] == a && s[..|b|] == b;
    assert s[|a| + 1..] == x && s[|b| + 1..] == y;
  }

  /** Likewise around a separator that the heads do not contain. */
  lemma {:induction false} FirstSeparator(a: string, b: string, x: string, y: string, sep: char)
    requires sep !in a && sep !in b
    requires a + [sep] + x == b + [sep] + y
    ensures a == b && x == y
  {
    var s := a + [sep] + x;
    forall i | 0 <= i < |a| ensures s[i] != sep { assert s[i] == a[i]; }
    forall i | 0 <= i < |b| ensures s[i] != sep { assert s[i] == b[i]; }
    assert s[|a|] == sep && s[|b|] == sep;
    assert |a| == |b|;
    assert s[..|a|] == a && s[..|b|] == b;
    assert s[|a| + 1..] == x && s[|b| + 1..] == y;
  }

  /** A number's text is its decimal digits, most significant first, after a minus sign if it is negative. */
  lemma {:induction false} DecimalText()
    ensures IntToString(-4096) == "-4096" && IntToString(0) == "0"
  {}

  /** A number with anything but a digit after it is not read at all. */
  lemma {:induction false} NothingAfterDigits(n: nat, c: char, fallback: int32)
    requires !IsDigit(c) && c as int != 0
    ensures ParseUint64(NatToString(n) + [c]) == None && ParseInt(NatToString(n) + [c], fallback) == fallback
  {
    var s := NatToString(n) + [c];
    CStringOfClean(s);
    assert s[0] == NatToString(n)[0] && IsDigit(s[0]);
    assert !AllDigits(s) by { assert s[|s| - 1] == c; }
    assert SkipSpace(s) == s;
    assert ReadSigned(s) == None by { hide NatToString, CString, SkipSpace, AllDigits; }
    hide NatToString, CString, ReadSigned;
  }

  lemma {:induction false} SkipsSpace(pad: string, s: string)
    requires forall i :: 0 <= i < |pad| ==> pad[i] == ' ' || 9 <= pad[i] as int <= 13
    requires s != [] && s[0] != ' ' && !(9 <= s[0] as int <= 13)
    ensures SkipSpace(pad + s) == s
  {
    if pad != [] {
      SkipsSpace(pad[1..], s);
      assert (pad + s)[1..] == pad[1..] + s;
    } else {
      assert pad + s == s;
    }
  }

  lemma {:induction false} ReadPadded(pad: string, sign: string, n: nat)
    requires forall i :: 0 <= i < |pad| ==> pad[i] == ' ' || 9 <= pad[i] as int <= 13
    requires sign == "" || sign == "+" || sign == "-"
    ensures ReadSigned(pad + sign + NatToString(n)) == Some(Signed(sign == "-", NatToString(n)))
  {
    var s := sign + NatToString(n);
    assert pad + sign + NatToString(n) == pad + s;
    CStringOfClean(pad + s);
    SkipsSpace(pad, s);
    assert sign != "" ==> s[1..] == NatToString(n);
    assert sign == "" ==> s == NatToString(n);
    hide NatToString, CString, SkipSpace;
  }

  lemma MultipleVanishes(k: int)
    ensures (k * 0x1_0000_0000) % 0x1_0000_0000 == 0
  {}

  /** The cast keeps the value modulo 2^32; the largest 64-bit value becomes -1 and the least becomes 0. */
  lemma CastExactly(v: int)
    ensures (ToInt32(v) - v) % 0x1_0000_0000 == 0
    ensures ToInt32(INT64_MAX) == -1 && ToInt32(INT64_MIN) == 0
  {
    var q := v / TWO_32;
    assert v == q * TWO_32 + v % TWO_32;
    MultipleVanishes(-q);
    MultipleVanishes(-q - 1);
  }

  function Signed64(sign: string, n: nat): int {
    if sign == "-" then -(n as int) else n
  }

  lemma ValueOfSigned(token: string, s: Signed)
    requires ReadSigned(token) == Some(s) && AllDigits(s.digits)
    ensures var v := DigitsValue(s.digits);
            ParseUint64(token) == Some(if v > 0xffff_ffff_ffff_ffff then 0xffff_ffff_ffff_ffff
                                       else if s.negative && v > 0 then 0x1_0000_0000_0000_0000 - v
                                       else v)
  {
    hide ReadSigned, DigitsValue, AllDigits;
  }

  /** A number after any white space and a sign or none, read as 64 bits: saturated, and negated after a minus sign. */
  lemma {:induction false} ReadsUint64(pad: string, sign: string, n: nat)
    requires forall i :: 0 <= i < |pad| ==> pad[i] == ' ' || 9 <= pad[i] as int <= 13
    requires sign == "" || sign == "+" || sign == "-"
    ensures ParseUint64(pad + sign + NatToString(n)) ==
            Some(if n > 0xffff_ffff_ffff_ffff then 0xffff_ffff_ffff_ffff
                 else if sign == "-" && n > 0 then 0x1_0000_0000_0000_0000 - n
                 else n)
  {
    hide *;
    ReadPadded(pad, sign, n);
    NatRoundTrip(n);
    ValueOfSigned(pad + sign + NatToString(n), Signed(sign == "-", NatToString(n)));
  }

  /** And as an int: congruent to the number modulo 2^32, or what becomes of strtol's two limits outside them. */
  lemma {:induction false} ReadsInt(pad: string, sign: string, n: nat, fallback: int32)
    requires forall i :: 0 <= i < |pad| ==> pad[i] == ' ' || 9 <= pad[i] as int <= 13
    requires sign == "" || sign == "+" || sign == "-"
    ensures var v, r: int := Signed64(sign, n), ParseInt(pad + sign + NatToString(n), fallback);
            if v > 0x7fff_ffff_ffff_ffff then r == -1
            else if v < -0x8000_0000_0000_0000 then r == 0
            else (r - v) % 0x1_0000_0000 == 0
  {
    ReadPadded(pad, sign, n);
    NatRoundTrip(n);
    CastExactly(Signed64(sign, n));
    hide NatToString, ReadSigned, DigitsValue, ToInt32;
  }
}
