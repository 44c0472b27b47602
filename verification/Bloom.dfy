/** The byte-array Bloom filter (tables/bloom_filter.cpp) as a set of bit positions. */
module Bloom {
  import opened Collections
  import opened Text
  import opened Hashing

  // ---------- one byte ----------

  function Mask(k: nat): bv8
    requires k < 8
  {
    (1 as bv8) << k
  }

  predicate TestBit(b: bv8, k: nat)
    requires k < 8
  {
    b & Mask(k) != 0
  }

  lemma OrMask(b: bv8, j: nat, k: nat)
    requires j < 8 && k < 8
    ensures TestBit(b | Mask(j), k) <==> j == k || TestBit(b, k)
  {}

  lemma OrBytes(a: bv8, b: bv8, k: nat)
    requires k < 8
    ensures TestBit(a | b, k) <==> TestBit(a, k) || TestBit(b, k)
  {}

  lemma SameMaskedBits(a: bv8, b: bv8)
    requires (a & 1 != 0 <==> b & 1 != 0) && (a & 2 != 0 <==> b & 2 != 0)
    requires (a & 4 != 0 <==> b & 4 != 0) && (a & 8 != 0 <==> b & 8 != 0)
    requires (a & 16 != 0 <==> b & 16 != 0) && (a & 32 != 0 <==> b & 32 != 0)
    requires (a & 64 != 0 <==> b & 64 != 0) && (a & 128 != 0 <==> b & 128 != 0)
    ensures a == b
  {}

  lemma SameBits(a: bv8, b: bv8)
    requires forall k: nat :: k < 8 ==> (TestBit(a, k) <==> TestBit(b, k))
    ensures a == b
  {
    assert TestBit(a, 0) <==> TestBit(b, 0);
    assert TestBit(a, 1) <==> TestBit(b, 1);
    assert TestBit(a, 2) <==> TestBit(b, 2);
    assert TestBit(a, 3) <==> TestBit(b, 3);
    assert TestBit(a, 4) <==> TestBit(b, 4);
    assert TestBit(a, 5) <==> TestBit(b, 5);
    assert TestBit(a, 6) <==> TestBit(b, 6);
    assert TestBit(a, 7) <==> TestBit(b, 7);
    SameMaskedBits(a, b);
  }

  /** The positions below k that are set in byte b, shifted to start at `base`. */
  function ByteBits(b: bv8, base: nat, k: nat): (s: set<nat>)
    requires k <= 8
    ensures forall i :: i in s <==> base <= i < base + k && TestBit(b, i - base)
  {
    if k == 0 then {}
    else ByteBits(b, base, k - 1) + (if TestBit(b, k - 1) then {base + (k - 1)} else {})
  }

  function PopcountBelow(b: bv8, k: nat): nat
    requires k <= 8
  {
    if k == 0 then 0 else PopcountBelow(b, k - 1) + (if TestBit(b, k - 1) then 1 else 0)
  }

  /** __builtin_popcount of one byte. */
  function Popcount(b: bv8): nat {
    PopcountBelow(b, 8)
  }

  lemma {:induction false} PopcountIsCardinality(b: bv8, base: nat, k: nat)
    requires k <= 8
    ensures |ByteBits(b, base, k)| == PopcountBelow(b, k)
  {
    if k > 0 {
      PopcountIsCardinality(b, base, k - 1);
    }
  }

  // ---------- filters as values ----------

  datatype Filter = Filter(bitCount: nat, hashCount: nat, data: seq<bv8>)

  function ByteCount(bitCount: nat): nat {
    (bitCount + 7) / 8
  }

  predicate WellSized(f: Filter) {
    |f.data| == ByteCount(f.bitCount)
  }

  function Empty(bitCount: nat, hashCount: nat): (f: Filter)
    ensures WellSized(f)
  {
    Filter(bitCount, hashCount, seq(ByteCount(bitCount), _ => 0))
  }

  /** The meaning of a filter: the set of bit positions that are one. */
  function Bits(f: Filter): set<nat> {
    set i: nat | 0 <= i < 8 * |f.data| && TestBit(f.data[i / 8], i % 8)
  }

  /** The bit positions of one key, in the order its hash probes them. */
  function Positions(key: string, bitCount: nat, hashCount: nat): (ixs: seq<nat>)
    ensures bitCount == 0 || hashCount == 0 ==> ixs == []
    ensures bitCount > 0 ==> |ixs| == hashCount
    ensures forall i :: 0 <= i < |ixs| ==> ixs[i] < bitCount
  {
    if bitCount == 0 then [] else seq(hashCount, i requires 0 <= i => Index(key, i, bitCount))
  }

  /** What adding a key contributes; a filter without bits or hashes ignores it. */
  function KeyBits(key: string, bitCount: nat, hashCount: nat): set<nat> {
    SetOf(Positions(key, bitCount, hashCount))
  }

  function SetBit(f: Filter, idx: nat): (g: Filter)
    requires WellSized(f) && (f.bitCount > 0 ==> idx < f.bitCount)
    ensures WellSized(g) && g.bitCount == f.bitCount && g.hashCount == f.hashCount
  {
    if f.bitCount == 0 then f
    else f.(data := f.data[idx / 8 := f.data[idx / 8] | Mask(idx % 8)])
  }

  function SetBits(f: Filter, ixs: seq<nat>): (g: Filter)
    requires WellSized(f) && forall i :: 0 <= i < |ixs| ==> ixs[i] < f.bitCount
    ensures WellSized(g) && g.bitCount == f.bitCount && g.hashCount == f.hashCount
  {
    if ixs == [] then f else SetBit(SetBits(f, ixs[..|ixs| - 1]), ixs[|ixs| - 1])
  }

  function Add(f: Filter, key: string): (g: Filter)
    requires WellSized(f)
    ensures WellSized(g) && g.bitCount == f.bitCount && g.hashCount == f.hashCount
  {
    SetBits(f, Positions(key, f.bitCount, f.hashCount))
  }

  function AddAll(f: Filter, keys: seq<string>): (g: Filter)
    requires WellSized(f)
    ensures WellSized(g) && g.bitCount == f.bitCount && g.hashCount == f.hashCount
  {
    if keys == [] then f else Add(AddAll(f, keys[..|keys| - 1]), keys[|keys| - 1])
  }

  /** maybe_contains. */
  predicate Contains(f: Filter, key: string) {
    f.bitCount > 0 && f.hashCount > 0 && KeyBits(key, f.bitCount, f.hashCount) <= Bits(f)
  }

  function OrData(a: seq<bv8>, b: seq<bv8>): seq<bv8>
    requires |a| == |b|
  {
    seq(|a|, i requires 0 <= i < |a| => a[i] | b[i])
  }

  function Merge(f: Filter, g: Filter): Filter {
    if f.bitCount != g.bitCount || f.hashCount != g.hashCount || |f.data| != |g.data| then f
    else f.(data := OrData(f.data, g.data))
  }

  // ---------- the set view ----------

  lemma EmptyBits(bitCount: nat, hashCount: nat)
    ensures Bits(Empty(bitCount, hashCount)) == {}
  {
    forall i: nat | i < 8 * ByteCount(bitCount) ensures !TestBit(Empty(bitCount, hashCount).data[i / 8], i % 8) {}
  }

  lemma SetBitBits(f: Filter, idx: nat)
    requires WellSized(f) && f.bitCount > 0 && idx < f.bitCount
    ensures Bits(SetBit(f, idx)) == Bits(f) + {idx}
  {
    var g := SetBit(f, idx);
    forall i: nat | i < 8 * |f.data|
      ensures TestBit(g.data[i / 8], i % 8) <==> i == idx || TestBit(f.data[i / 8], i % 8)
    {
      if i / 8 == idx / 8 {
        OrMask(f.data[idx / 8], idx % 8, i % 8);
      }
    }
    assert idx in Bits(g);
  }

  lemma {:induction false} SetBitsBits(f: Filter, ixs: seq<nat>)
    requires WellSized(f) && forall i :: 0 <= i < |ixs| ==> ixs[i] < f.bitCount
    ensures Bits(SetBits(f, ixs)) == Bits(f) + SetOf(ixs)
  {
    if ixs != [] {
      var init, last := ixs[..|ixs| - 1], ixs[|ixs| - 1];
      SetBitsBits(f, init);
      SetBitBits(SetBits(f, init), last);
      assert SetOf(ixs) == SetOf(init) + {last};
    }
  }

  /** Adding a key unions its positions in, so the filter then tests positive for it. */
  lemma AddBits(f: Filter, key: string)
    requires WellSized(f)
    ensures Bits(Add(f, key)) == Bits(f) + KeyBits(key, f.bitCount, f.hashCount)
    ensures f.bitCount > 0 && f.hashCount > 0 ==> Contains(Add(f, key), key)
  {
    SetBitsBits(f, Positions(key, f.bitCount, f.hashCount));
  }

  lemma MergeBits(f: Filter, g: Filter)
    requires WellSized(f) && WellSized(g)
    ensures Bits(Merge(f, g)) ==
            if f.bitCount == g.bitCount && f.hashCount == g.hashCount then Bits(f) + Bits(g) else Bits(f)
  {
    if f.bitCount == g.bitCount && f.hashCount == g.hashCount {
      var m := Merge(f, g);
      forall i: nat | i < 8 * |f.data|
        ensures TestBit(m.data[i / 8], i % 8) <==> TestBit(f.data[i / 8], i % 8) || TestBit(g.data[i / 8], i % 8)
      {
        OrBytes(f.data[i / 8], g.data[i / 8], i % 8);
      }
    }
  }

  /** Bytes are determined by the set they encode. */
  lemma Extensional(f: Filter, g: Filter)
    requires WellSized(f) && WellSized(g) && f.bitCount == g.bitCount && f.hashCount == g.hashCount
    requires Bits(f) == Bits(g)
    ensures f == g
  {
    forall n | 0 <= n < |f.data| ensures f.data[n] == g.data[n] {
      forall k: nat | k < 8 ensures TestBit(f.data[n], k) <==> TestBit(g.data[n], k) {
        var i := 8 * n + k;
        assert i / 8 == n && i % 8 == k;
        assert i in Bits(f) <==> i in Bits(g);
      }
      SameBits(f.data[n], g.data[n]);
    }
  }

  /** A larger set keeps every positive answer. */
  lemma ContainsMonotone(f: Filter, g: Filter, key: string)
    requires f.bitCount == g.bitCount && f.hashCount == g.hashCount
    requires Bits(f) <= Bits(g) && Contains(f, key)
    ensures Contains(g, key)
  {}

  function UnionOfKeys(keys: set<string>, bitCount: nat, hashCount: nat): set<nat> {
    set k, i | k in keys && i in KeyBits(k, bitCount, hashCount) :: i
  }

  lemma {:induction false} AddAllBits(f: Filter, keys: seq<string>)
    requires WellSized(f)
    ensures Bits(AddAll(f, keys)) == Bits(f) + UnionOfKeys(SetOf(keys), f.bitCount, f.hashCount)
  {
    if keys != [] {
      var init, last := keys[..|keys| - 1], keys[|keys| - 1];
      AddAllBits(f, init);
      AddBits(AddAll(f, init), last);
      assert SetOf(keys) == SetOf(init) + {last};
    }
  }

  /** The bytes after any run of additions depend only on which keys were added, not on their order or number. */
  lemma {:induction false} AddAllOrderIndependent(f: Filter, keys: seq<string>, others: seq<string>)
    requires WellSized(f) && SetOf(keys) == SetOf(others)
    ensures AddAll(f, keys) == AddAll(f, others)
  {
    AddAllBits(f, keys);
    AddAllBits(f, others);
    Extensional(AddAll(f, keys), AddAll(f, others));
  }

  lemma {:induction false} AddAllContains(f: Filter, keys: seq<string>, key: string)
    requires WellSized(f) && f.bitCount > 0 && f.hashCount > 0 && key in keys
    ensures Contains(AddAll(f, keys), key)
  {
    AddAllBits(f, keys);
    assert KeyBits(key, f.bitCount, f.hashCount) <= UnionOfKeys(SetOf(keys), f.bitCount, f.hashCount);
  }

  /** Merging two filled filters is filling one with both key lists. */
  lemma {:induction false} MergeIsUnionOfKeys(keys: seq<string>, others: seq<string>, bitCount: nat, hashCount: nat)
    ensures Merge(AddAll(Empty(bitCount, hashCount), keys), AddAll(Empty(bitCount, hashCount), others))
            == AddAll(Empty(bitCount, hashCount), keys + others)
  {
    var e := Empty(bitCount, hashCount);
    EmptyBits(bitCount, hashCount);
    AddAllBits(e, keys);
    AddAllBits(e, others);
    AddAllBits(e, keys + others);
    MergeBits(AddAll(e, keys), AddAll(e, others));
    assert SetOf(keys + others) == SetOf(keys) + SetOf(others);
    Extensional(Merge(AddAll(e, keys), AddAll(e, others)), AddAll(e, keys + others));
  }

  // ---------- how full a filter is ----------

  function BitsSet(data: seq<bv8>): nat {
    if data == [] then 0 else BitsSet(data[..|data| - 1]) + Popcount(data[|data| - 1])
  }

  function FillRatio(f: Filter): real {
    if f.bitCount == 0 || f.data == [] then 0.0 else BitsSet(f.data) as real / f.bitCount as real
  }

  /** No bit beyond the declared size is ever set. */
  predicate PaddingClear(f: Filter) {
    forall i :: i in Bits(f) ==> i < f.bitCount
  }

  lemma BitsOfLastByte(f: Filter)
    requires f.data != []
    ensures var n := |f.data| - 1;
            var low, top := Bits(f.(data := f.data[..n])), ByteBits(f.data[n], 8 * n, 8);
            Bits(f) == low + top && low !! top
  {
    var n := |f.data| - 1;
    var low, top := Bits(f.(data := f.data[..n])), ByteBits(f.data[n], 8 * n, 8);
    forall i: nat ensures i in Bits(f) <==> i in low || i in top {
      if 8 * n <= i < 8 * n + 8 {
        assert i / 8 == n && i % 8 == i - 8 * n;
      } else if i < 8 * n {
        assert i / 8 < n;
      }
    }
  }

  lemma {:induction false} BitsSetIsCardinality(f: Filter)
    ensures |Bits(f)| == BitsSet(f.data)
    decreases |f.data|
  {
    if f.data == [] {
      assert Bits(f) == {};
    } else {
      var n := |f.data| - 1;
      BitsSetIsCardinality(f.(data := f.data[..n]));
      PopcountIsCardinality(f.data[n], 8 * n, 8);
      BitsOfLastByte(f);
    }
  }

  lemma {:induction false} BoundedSetSize(s: set<nat>, n: nat)
    requires forall i :: i in s ==> i < n
    ensures |s| <= n
  {
    if n > 0 {
      BoundedSetSize(s - {n - 1}, n - 1);
      assert s == s - {n - 1} || s == (s - {n - 1}) + {n - 1};
    } else {
      assert s == {};
    }
  }

  /** Each key sets at most hash_count new bits. */
  lemma AddGrowth(f: Filter, key: string)
    requires WellSized(f)
    ensures BitsSet(f.data) <= BitsSet(Add(f, key).data) <= BitsSet(f.data) + f.hashCount
  {
    AddBits(f, key);
    BitsSetIsCardinality(f);
    BitsSetIsCardinality(Add(f, key));
    var added := KeyBits(key, f.bitCount, f.hashCount);
    SetOfSize(Positions(key, f.bitCount, f.hashCount));
    var extra := added - Bits(f);
    assert Bits(Add(f, key)) == Bits(f) + extra;
    SubsetSize(extra, added);
  }

  lemma RatioAtMostOne(part: nat, whole: nat)
    requires part <= whole && whole > 0
    ensures 0.0 <= part as real / whole as real <= 1.0
  {}

  /** Every filter built by additions keeps its padding clear, so its fill ratio never exceeds one. */
  lemma {:induction false} AddAllFill(bitCount: nat, hashCount: nat, keys: seq<string>)
    ensures var f := AddAll(Empty(bitCount, hashCount), keys);
            PaddingClear(f) && 0.0 <= FillRatio(f) <= 1.0
  {
    var e := Empty(bitCount, hashCount);
    var f := AddAll(e, keys);
    EmptyBits(bitCount, hashCount);
    AddAllBits(e, keys);
    assert PaddingClear(f);
    BitsSetIsCardinality(f);
    BoundedSetSize(Bits(f), bitCount);
    if bitCount > 0 {
      RatioAtMostOne(BitsSet(f.data), bitCount);
    }
  }

  // ---------- hexadecimal text ----------

  function HexChar(n: bv8): char
    requires n < 16
  {
    "0123456789abcdef"[n as int]
  }

  function HexValue(c: char): int {
    if '0' <= c <= '9' then c as int - '0' as int
    else if 'a' <= c <= 'f' then 10 + (c as int - 'a' as int)
    else if 'A' <= c <= 'F' then 10 + (c as int - 'A' as int)
    else -1
  }

  function Nibble(v: int): bv8
    requires 0 <= v < 16
  {
    v as bv8
  }

  function HexByte(hi: int, lo: int): bv8
    requires 0 <= hi < 16 && 0 <= lo < 16
  {
    (Nibble(hi) << 4) | Nibble(lo)
  }

  function HexPair(b: bv8): string {
    [HexChar((b >> 4) & 0x0f), HexChar(b & 0x0f)]
  }

  function HexText(data: seq<bv8>): (s: string)
    ensures |s| == 2 * |data|
  {
    if data == [] then "" else HexText(data[..|data| - 1]) + HexPair(data[|data| - 1])
  }

  function ToHex(f: Filter): string {
    HexText(f.data)
  }

  predicate IsHex(s: string) {
    forall i :: 0 <= i < |s| ==> HexValue(s[i]) >= 0
  }

  function HexByteAt(hex: string, i: nat): bv8
    requires 2 * i + 1 < |hex| && IsHex(hex)
  {
    HexByte(HexValue(hex[2 * i]), HexValue(hex[2 * i + 1]))
  }

  function HexBytes(hex: string): (data: seq<bv8>)
    requires |hex| % 2 == 0 && IsHex(hex)
  {
    seq(|hex| / 2, i requires 0 <= i < |hex| / 2 => HexByteAt(hex, i))
  }

  function FromHex(bitCount: nat, hashCount: nat, hex: string): Option<Filter> {
    if |hex| != ByteCount(bitCount) * 2 || !IsHex(hex) then None
    else Some(Filter(bitCount, hashCount, HexBytes(hex)))
  }

  function LowerHexChar(c: char): char {
    if 'A' <= c <= 'F' then ((c as int) + 32) as char else c
  }

  function LowerHex(s: string): string {
    seq(|s|, i requires 0 <= i < |s| => LowerHexChar(s[i]))
  }

  lemma HexCharValue(n: bv8)
    requires n < 16
    ensures HexValue(HexChar(n)) == n as int
  {}

  lemma HexByteOfNibbles(hi: bv8, lo: bv8)
    requires hi < 16 && lo < 16
    ensures HexByte(hi as int, lo as int) == (hi << 4) | lo
  {
    NibbleValue(hi);
    NibbleValue(lo);
    hide Nibble;
  }

  lemma NibbleValue(b: bv8)
    requires b < 16
    ensures 0 <= b as int < 16 && Nibble(b as int) == b
  {}

  lemma NibblesRejoin(b: bv8)
    ensures (((b >> 4) & 0x0f) << 4) | (b & 0x0f) == b
  {}

  lemma PairToByte(b: bv8)
    ensures HexByte(HexValue(HexPair(b)[0]), HexValue(HexPair(b)[1])) == b
  {
    HexCharValue((b >> 4) & 0x0f);
    HexCharValue(b & 0x0f);
    HexByteOfNibbles((b >> 4) & 0x0f, b & 0x0f);
    NibblesRejoin(b);
  }

  lemma ByteToNibbles(hi: int, lo: int)
    requires 0 <= hi < 16 && 0 <= lo < 16
    ensures ((HexByte(hi, lo) >> 4) & 0x0f) as int == hi && (HexByte(hi, lo) & 0x0f) as int == lo
  {}

  lemma LowerOfDigit(c: char)
    requires HexValue(c) >= 0
    ensures "0123456789abcdef"[HexValue(c)] == LowerHexChar(c)
  {}

  lemma PairPrintsLower(hi: char, lo: char)
    requires HexValue(hi) >= 0 && HexValue(lo) >= 0
    ensures HexPair(HexByte(HexValue(hi), HexValue(lo))) == [LowerHexChar(hi), LowerHexChar(lo)]
  {
    ByteToNibbles(HexValue(hi), HexValue(lo));
    LowerOfDigit(hi);
    LowerOfDigit(lo);
  }

  lemma {:induction false} HexTextRoundTrip(data: seq<bv8>)
    ensures IsHex(HexText(data)) && HexBytes(HexText(data)) == data
  {
    if data != [] {
      var init, last := data[..|data| - 1], data[|data| - 1];
      HexTextRoundTrip(init);
      PairToByte(last);
      HexCharValue((last >> 4) & 0x0f);
      HexCharValue(last & 0x0f);
      HexBytesAppend(HexText(init), HexPair(last)[0], HexPair(last)[1]);
      assert HexText(data) == HexText(init) + [HexPair(last)[0], HexPair(last)[1]];
      assert data == init + [last];
    }
  }

  /** Every filter is recovered from its text by a reader with the same parameters. */
  lemma HexRoundTrip(f: Filter)
    requires WellSized(f)
    ensures FromHex(f.bitCount, f.hashCount, ToHex(f)) == Some(f)
  {
    HexTextRoundTrip(f.data);
  }

  lemma HexBytesAppend(hex: string, hi: char, lo: char)
    requires |hex| % 2 == 0 && IsHex(hex) && HexValue(hi) >= 0 && HexValue(lo) >= 0
    ensures IsHex(hex + [hi, lo])
    ensures HexBytes(hex + [hi, lo]) == HexBytes(hex) + [HexByte(HexValue(hi), HexValue(lo))]
  {
    var more := hex + [hi, lo];
    assert |HexBytes(more)| == |hex| / 2 + 1;
    forall i: nat | i < |hex| / 2 ensures HexByteAt(more, i) == HexByteAt(hex, i) {
      assert more[2 * i] == hex[2 * i] && more[2 * i + 1] == hex[2 * i + 1];
    }
  }

  lemma {:induction false} HexTextAt(data: seq<bv8>, i: nat)
    requires i < |data|
    ensures HexText(data)[2 * i..2 * i + 2] == HexPair(data[i])
  {
    if i < |data| - 1 {
      HexTextAt(data[..|data| - 1], i);
    }
  }

  lemma ByteTextLower(hex: string, i: nat)
    requires |hex| % 2 == 0 && IsHex(hex) && 2 * i < |hex|
    ensures HexText(HexBytes(hex))[2 * i..2 * i + 2] == LowerHex(hex)[2 * i..2 * i + 2]
  {
    HexTextAt(HexBytes(hex), i);
    PairPrintsLower(hex[2 * i], hex[2 * i + 1]);
  }

  lemma HexBytesRoundTrip(hex: string)
    requires |hex| % 2 == 0 && IsHex(hex)
    ensures HexText(HexBytes(hex)) == LowerHex(hex)
  {
    var s, t := HexText(HexBytes(hex)), LowerHex(hex);
    forall k | 0 <= k < |hex| ensures s[k] == t[k] {
      var i := k / 2;
      ByteTextLower(hex, i);
      assert s[k] == s[2 * i..2 * i + 2][k % 2] && t[k] == t[2 * i..2 * i + 2][k % 2];
    }
  }

  /** Text that is accepted prints back as itself in lower case. */
  lemma HexAcceptedPrintsLower(bitCount: nat, hashCount: nat, hex: string)
    requires FromHex(bitCount, hashCount, hex).Some?
    ensures ToHex(FromHex(bitCount, hashCount, hex).value) == LowerHex(hex)
  {
    HexBytesRoundTrip(hex);
  }

  // ---------- any sequence of additions and merges ----------

  /** How a filter came about: a new one, one more key, or a merge of a filter with its own history. */
  datatype Build =
    | Made(bitCount: nat, hashCount: nat)
    | Added(build: Build, key: string)
    | Merged(into: Build, other: Build)

  function Built(b: Build): (f: Filter)
    ensures WellSized(f) && f.bitCount == BitsOf(b) && f.hashCount == HashesOf(b)
  {
    match b
    case Made(bitCount, hashCount) => Empty(bitCount, hashCount)
    case Added(build, key) => Add(Built(build), key)
    case Merged(into, other) => Merge(Built(into), Built(other))
  }

  function BitsOf(b: Build): nat {
    match b
    case Made(bitCount, _) => bitCount
    case Added(build, _) => BitsOf(build)
    case Merged(into, _) => BitsOf(into)
  }

  function HashesOf(b: Build): nat {
    match b
    case Made(_, hashCount) => hashCount
    case Added(build, _) => HashesOf(build)
    case Merged(into, _) => HashesOf(into)
  }

  /** The keys that went in; an incompatible merge brings none. */
  function KeysIn(b: Build): set<string> {
    match b
    case Made(_, _) => {}
    case Added(build, key) => KeysIn(build) + {key}
    case Merged(into, other) =>
      if BitsOf(into) == BitsOf(other) && HashesOf(into) == HashesOf(other) then KeysIn(into) + KeysIn(other)
      else KeysIn(into)
  }

  lemma UnionMore(keys: set<string>, more: set<string>, bitCount: nat, hashCount: nat)
    ensures UnionOfKeys(keys + more, bitCount, hashCount)
            == UnionOfKeys(keys, bitCount, hashCount) + UnionOfKeys(more, bitCount, hashCount)
  {}

  lemma UnionOfOne(key: string, bitCount: nat, hashCount: nat)
    ensures UnionOfKeys({key}, bitCount, hashCount) == KeyBits(key, bitCount, hashCount)
  {}

  /** After any sequence of additions and merges the bytes encode exactly the union of the keys' position sets. */
  lemma {:induction false} BuiltBits(b: Build)
    ensures Bits(Built(b)) == UnionOfKeys(KeysIn(b), BitsOf(b), HashesOf(b))
  {
    hide Bits, KeyBits, UnionOfKeys, Merge, Add, Empty;
    match b {
      case Made(bitCount, hashCount) =>
        EmptyBits(bitCount, hashCount);
        UnionOfNone(bitCount, hashCount);
      case Added(build, key) =>
        BuiltBits(build);
        AddBits(Built(build), key);
        UnionMore(KeysIn(build), {key}, BitsOf(b), HashesOf(b));
        UnionOfOne(key, BitsOf(b), HashesOf(b));
      case Merged(into, other) =>
        BuiltBits(into);
        BuiltBits(other);
        MergeBits(Built(into), Built(other));
        UnionMore(KeysIn(into), KeysIn(other), BitsOf(b), HashesOf(b));
    }
  }

  lemma UnionOfNone(bitCount: nat, hashCount: nat)
    ensures UnionOfKeys({}, bitCount, hashCount) == {}
  {}

  /** So it tests positive for every key that went in, keeps its padding clear, and its fill ratio never exceeds one. */
  lemma {:induction false} BuiltSound(b: Build)
    ensures var f := Built(b);
      && PaddingClear(f) && 0.0 <= FillRatio(f) <= 1.0
      && (BitsOf(b) > 0 && HashesOf(b) > 0 ==> forall k :: k in KeysIn(b) ==> Contains(f, k))
  {
    var f := Built(b);
    BuiltBits(b);
    BitsSetIsCardinality(f);
    hide Built, Bits, KeysIn, BitsSet;
    assert PaddingClear(f);
    BoundedSetSize(Bits(f), f.bitCount);
    if f.bitCount > 0 {
      RatioAtMostOne(BitsSet(f.data), f.bitCount);
    }
  }

  /** How the keys came in makes no difference to the bytes. */
  lemma {:induction false} BuildsAgree(b: Build, c: Build)
    requires BitsOf(b) == BitsOf(c) && HashesOf(b) == HashesOf(c) && KeysIn(b) == KeysIn(c)
    ensures Built(b) == Built(c)
  {
    hide *;
    BuiltBits(b);
    BuiltBits(c);
    Extensional(Built(b), Built(c));
  }

  /** The longest text a reader of this bit count accepts that sets every bit there is. */
  function FullText(bitCount: nat): string {
    seq(2 * ByteCount(bitCount), _ => 'f')
  }

  lemma {:induction false} FullTextReads(bitCount: nat, hashCount: nat)
    ensures FromHex(bitCount, hashCount, FullText(bitCount))
            == Some(Filter(bitCount, hashCount, seq(ByteCount(bitCount), _ => 0xff)))
  {
    var hex, n := FullText(bitCount), ByteCount(bitCount);
    assert HexValue('f') == 15 && HexByte(15, 15) == 0xff;
    assert IsHex(hex);
    assert HexBytes(hex) == seq(n, _ => 0xff as bv8);
  }

  lemma {:induction false} FullBits(n: nat)
    ensures BitsSet(seq(n, _ => 0xff as bv8)) == 8 * n
  {
    if n > 0 {
      FullByte();
      FullBits(n - 1);
      assert seq(n, _ => 0xff as bv8)[..n - 1] == seq(n - 1, _ => 0xff as bv8);
    }
  }

  /** Some bit of the last byte lies beyond the declared size exactly if that is no whole number of bytes. */
  lemma BytesRoundUp(bitCount: nat)
    ensures bitCount <= 8 * ByteCount(bitCount)
    ensures bitCount == 8 * ByteCount(bitCount) <==> bitCount % 8 == 0
  {}

  lemma {:induction false} WholeBytesBounded(f: Filter)
    requires WellSized(f) && f.bitCount % 8 == 0
    ensures PaddingClear(f) && 0.0 <= FillRatio(f) <= 1.0
  {
    BytesRoundUp(f.bitCount);
    assert PaddingClear(f);
    BitsSetIsCardinality(f);
    BoundedSetSize(Bits(f), f.bitCount);
    hide Bits, BitsSet;
    if f.bitCount > 0 {
      RatioAtMostOne(BitsSet(f.data), f.bitCount);
    }
  }

  lemma MoreThanOne(part: nat, whole: nat)
    requires part > whole > 0
    ensures part as real / whole as real > 1.0
  {}

  /**
   * A filter that was read from text may carry padding bits, and a ratio above one: every accepted text gives clear
   * padding, and every accepted text a ratio of at most one, if and only if the bit count is a whole number of bytes.
   */
  lemma {:induction false} DecodedPaddingExactly(bitCount: nat, hashCount: nat)
    ensures (forall hex :: FromHex(bitCount, hashCount, hex).Some? ==>
               PaddingClear(FromHex(bitCount, hashCount, hex).value)) <==> bitCount % 8 == 0
    ensures (forall hex :: FromHex(bitCount, hashCount, hex).Some? ==>
               FillRatio(FromHex(bitCount, hashCount, hex).value) <= 1.0) <==> bitCount % 8 == 0
  {
    BytesRoundUp(bitCount);
    if bitCount % 8 == 0 {
      forall hex | FromHex(bitCount, hashCount, hex).Some?
        ensures PaddingClear(FromHex(bitCount, hashCount, hex).value)
                && FillRatio(FromHex(bitCount, hashCount, hex).value) <= 1.0
      {
        WholeBytesBounded(FromHex(bitCount, hashCount, hex).value);
      }
    } else {
      FullTextReads(bitCount, hashCount);
      var f := FromHex(bitCount, hashCount, FullText(bitCount)).value;
      FullBits(ByteCount(bitCount));
      MoreThanOne(BitsSet(f.data), bitCount);
      BeyondTheEnd(f);
    }
  }

  lemma BeyondTheEnd(f: Filter)
    requires WellSized(f) && f.bitCount % 8 != 0 && f.data == seq(|f.data|, _ => 0xff as bv8)
    ensures !PaddingClear(f)
  {
    BytesRoundUp(f.bitCount);
    assert TestBit(0xff, f.bitCount % 8);
    assert f.bitCount in Bits(f);
  }

  /** An instance: one declared bit read from a full byte has the ratio eight. */
  lemma {:induction false} DecodedPaddingCounts()
    ensures FromHex(1, 1, "ff").Some? && FillRatio(FromHex(1, 1, "ff").value) == 8.0
  {
    FullTextReads(1, 1);
    FullBits(1);
    assert FullText(1) == "ff";
  }

  lemma {:induction false} FullByte()
    ensures Popcount(0xff) == 8
  {
    assert forall k: nat :: k < 8 ==> TestBit(0xff, k);
    PopcountAll(0xff, 8);
  }

  lemma {:induction false} PopcountAll(b: bv8, k: nat)
    requires k <= 8 && forall i: nat :: i < k ==> TestBit(b, i)
    ensures PopcountBelow(b, k) == k
  {
    if k > 0 {
      PopcountAll(b, k - 1);
    }
  }

  /** BloomFilter::digest: FNV-1a over the bytes. */
  function DigestOf(data: seq<bv8>): uint64 {
    if data == [] then FNV_OFFSET else FnvStep(DigestOf(data[..|data| - 1]), data[|data| - 1] as int)
  }

  function Digest(f: Filter): uint64 {
    DigestOf(f.data)
  }

  lemma ByteValue(a: bv8, b: bv8)
    requires a as int == b as int
    ensures a == b
  {}

  lemma LastByte(h: uint64, a: bv8, g: uint64, b: bv8)
    requires FnvStep(h, a as int) == FnvStep(g, b as int)
    ensures h == g ==> a == b
    ensures a == b ==> h == g
  {
    hide FnvStep;
    FnvStepSeparates(h, a as int, g, b as int);
    if h == g {
      ByteValue(a, b);
    }
  }

  lemma {:induction false} BytesApart(a: seq<bv8>, b: seq<bv8>, i: nat)
    requires i < |a| == |b| && a[i] != b[i] && forall k :: 0 <= k < |a| && k != i ==> a[k] == b[k]
    ensures DigestOf(a) != DigestOf(b)
  {
    var n := |a| - 1;
    var h, g, x, y := DigestOf(a[..n]), DigestOf(b[..n]), a[n], b[n];
    assert DigestOf(a) == FnvStep(h, x as int) && DigestOf(b) == FnvStep(g, y as int);
    if i == n {
      assert a[..n] == b[..n];
    } else {
      BytesApart(a[..n], b[..n], i);
    }
    hide DigestOf, FnvStep;
    if DigestOf(a) == DigestOf(b) {
      LastByte(h, x, g, y);
    }
  }

  /** Two filters that differ in exactly one byte never have the same digest. */
  lemma {:induction false} DigestsApart(f: Filter, g: Filter, i: nat)
    requires i < |f.data| == |g.data| && f.data[i] != g.data[i]
    requires forall k :: 0 <= k < |f.data| && k != i ==> f.data[k] == g.data[k]
    ensures Digest(f) != Digest(g)
  {
    BytesApart(f.data, g.data, i);
  }

  /** The i-th position a key probes, as its loops compute it. */
  lemma {:induction false} ProbeAt(key: string, i: nat, bitCount: nat, hashCount: nat)
    requires bitCount > 0 && i < hashCount
    ensures Positions(key, bitCount, hashCount)[i] == Combine(Fnv1a(key), Mix64(Fnv1a(key)), i, bitCount)
  {
    hide Fnv1a, Mix64, Combine;
  }

  lemma ContainsByProbes(f: Filter, key: string, bits: set<nat>)
    requires bits == Bits(f)
    ensures var ixs := Positions(key, f.bitCount, f.hashCount);
            Contains(f, key) <==>
              f.bitCount > 0 && f.hashCount > 0 && forall j :: 0 <= j < |ixs| ==> ixs[j] in bits
  {
    var ixs := Positions(key, f.bitCount, f.hashCount);
    assert forall j :: 0 <= j < |ixs| ==> ixs[j] in SetOf(ixs);
  }

  // ---------- the filter object ----------

  class BloomFilter {
    const bitCount: nat
    const hashCount: nat
    const data: array<bv8>

    ghost predicate Valid()
      reads this
    {
      data.Length == ByteCount(bitCount)
    }

    ghost function Value(): (f: Filter)
      requires Valid()
      reads this, data
      ensures WellSized(f)
    {
      Filter(bitCount, hashCount, data[..])
    }

    constructor (bitCount: nat, hashCount: nat)
      ensures Valid() && fresh(data)
      ensures Value() == Empty(bitCount, hashCount)
    {
      this.bitCount := bitCount;
      this.hashCount := hashCount;
      this.data := new bv8[ByteCount(bitCount)](_ => 0);
      new;
      assert data[..] == Empty(bitCount, hashCount).data;
    }

    method Clear()
      requires Valid()
      modifies data
      ensures Valid() && Value() == Empty(bitCount, hashCount)
    {
      for i := 0 to data.Length
        invariant forall j :: 0 <= j < i ==> data[j] == 0
      {
        data[i] := 0;
      }
      assert data[..] == Empty(bitCount, hashCount).data;
    }

    method PutBit(idx: nat)
      requires Valid() && (bitCount > 0 ==> idx < bitCount)
      modifies data
      ensures Valid() && Value() == SetBit(old(Value()), idx)
    {
      if bitCount == 0 {
        return;
      }
      data[idx / 8] := data[idx / 8] | Mask(idx % 8);
      assert data[..] == SetBit(old(Value()), idx).data;
    }

    method GetBit(idx: nat) returns (on: bool)
      requires Valid() && (bitCount > 0 ==> idx < bitCount)
      ensures on <==> bitCount > 0 && idx in Bits(Value())
    {
      if bitCount == 0 {
        return false;
      }
      on := TestBit(data[idx / 8], idx % 8);
    }

    method AddKey(key: string)
      requires Valid()
      modifies data
      ensures Valid() && Value() == Add(old(Value()), key)
    {
      hide Fnv1a, Mix64, Combine, SetBit, WellSized;
      ghost var ixs := Positions(key, bitCount, hashCount);
      ghost var start := Value();
      if bitCount == 0 || hashCount == 0 {
        return;
      }
      var h1 := Fnv1a(key);
      var h2 := Mix64(h1);
      for i := 0 to hashCount
        invariant Value() == SetBits(start, ixs[..i])
      {
        var idx := Combine(h1, h2, i, bitCount);
        ProbeAt(key, i, bitCount, hashCount);
        assert ixs[..i + 1][..i] == ixs[..i];
        PutBit(idx);
      }
      assert ixs[..hashCount] == ixs;
    }

    method MaybeContains(key: string) returns (positive: bool)
      requires Valid()
      ensures positive <==> Contains(Value(), key)
    {
      hide Contains, Bits, Positions, Fnv1a, Mix64, Combine, WellSized;
      ghost var f, ixs, bits := Value(), Positions(key, bitCount, hashCount), Bits(Value());
      ContainsByProbes(f, key, bits);
      if bitCount == 0 || hashCount == 0 {
        return false;
      }
      var h1 := Fnv1a(key);
      var h2 := Mix64(h1);
      for i := 0 to hashCount
        invariant Value() == f
        invariant forall j :: 0 <= j < i ==> ixs[j] in bits
      {
        var idx := Combine(h1, h2, i, bitCount);
        ProbeAt(key, i, bitCount, hashCount);
        var on := GetBit(idx);
        if !on {
          return false;
        }
        assert ixs[i] in bits;
      }
      return true;
    }

    method MergeFrom(other: BloomFilter)
      requires Valid() && other.Valid()
      modifies data
      ensures Valid() && Value() == Merge(old(Value()), old(other.Value()))
    {
      if bitCount != other.bitCount || hashCount != other.hashCount {
        return;
      }
      if data.Length != other.data.Length {
        return;
      }
      for i := 0 to data.Length
        invariant forall j :: 0 <= j < i ==> data[j] == old(data[j]) | old(other.data[j])
        invariant forall j :: i <= j < data.Length ==> data[j] == old(data[j]) && other.data[j] == old(other.data[j])
      {
        data[i] := data[i] | other.data[i];
      }
      assert data[..] == OrData(old(data[..]), old(other.data[..]));
    }

    method Hex() returns (out: string)
      requires Valid()
      ensures out == ToHex(Value())
    {
      out := "";
      for i := 0 to data.Length
        invariant out == HexText(data[..i])
      {
        assert data[..i + 1][..i] == data[..i];
        out := out + [HexChar((data[i] >> 4) & 0x0f)];
        out := out + [HexChar(data[i] & 0x0f)];
      }
      assert data[..data.Length] == data[..];
    }

    static method ReadHex(bitCount: nat, hashCount: nat, hex: string) returns (r: BloomFilter?)
      ensures r != null ==> r.Valid() && fresh(r) && fresh(r.data)
      ensures if r == null then FromHex(bitCount, hashCount, hex) == None
              else FromHex(bitCount, hashCount, hex) == Some(r.Value())
    {
      var expected := ByteCount(bitCount);
      if |hex| != expected * 2 {
        return null;
      }
      var filter := new BloomFilter(bitCount, hashCount);
      for i := 0 to expected
        invariant IsHex(hex[..2 * i]) && filter.data[..i] == HexBytes(hex[..2 * i])
      {
        var hi := HexValue(hex[2 * i]);
        var lo := HexValue(hex[2 * i + 1]);
        if hi < 0 || lo < 0 {
          return null;
        }
        filter.data[i] := HexByte(hi, lo);
        HexBytesAppend(hex[..2 * i], hex[2 * i], hex[2 * i + 1]);
        assert hex[..2 * (i + 1)] == hex[..2 * i] + [hex[2 * i], hex[2 * i + 1]];
        assert filter.data[..i + 1] == filter.data[..i] + [filter.data[i]];
      }
      assert hex[..2 * expected] == hex && filter.data[..expected] == filter.data[..];
      return filter;
    }

    method DigestValue() returns (hash: uint64)
      requires Valid()
      ensures hash == Digest(Value())
    {
      hash := FNV_OFFSET;
      for i := 0 to data.Length
        invariant hash == DigestOf(data[..i])
      {
        assert data[..i + 1][..i] == data[..i];
        hash := FnvStep(hash, data[i] as int);
      }
      assert data[..data.Length] == data[..];
    }

    method Fill() returns (ratio: real)
      requires Valid()
      ensures ratio == FillRatio(Value())
    {
      if bitCount == 0 || data.Length == 0 {
        return 0.0;
      }
      var bitsSet := 0;
      for i := 0 to data.Length
        invariant bitsSet == BitsSet(data[..i])
      {
        assert data[..i + 1][..i] == data[..i];
        bitsSet := bitsSet + Popcount(data[i]);
      }
      assert data[..data.Length] == data[..];
      ratio := bitsSet as real / bitCount as real;
    }
  }

  // ---------- the layout of bits and digits ----------

  /** Bit i is the bit of weight 2^(i mod 8) of byte i / 8, and a byte's high digit is printed before its low one. */
  lemma {:induction false} Layout()
    ensures SetBit(Filter(16, 1, [0, 0]), 9).data == [0, 2] && SetBit(Filter(16, 1, [0, 0]), 7).data == [0x80, 0]
    ensures ToHex(Filter(16, 1, [0x1f, 0xa0])) == "1fa0"
  {
    assert [0x1f as bv8, 0xa0][..1] == [0x1f] && [0x1f as bv8][..0] == [];
    assert HexText([]) == "" && HexText([0x1f]) == "1f";
    assert HexPair(0xa0) == "a0";
  }
}
