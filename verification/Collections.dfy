/** Facts about finite sets, sequences and sums that several modules need. */
module Collections {

  lemma {:induction false} SubsetSize<T>(a: set<T>, b: set<T>)
    requires a <= b
    ensures |a| <= |b|
  {
    if a != {} {
      var x :| x in a;
      SubsetSize(a - {x}, b - {x});
    }
  }

  function SetOf<T>(s: seq<T>): set<T> {
    set x | x in s
  }

  lemma {:induction false} SetOfSize<T>(s: seq<T>)
    ensures |SetOf(s)| <= |s|
  {
    if s != [] {
      SetOfSize(s[..|s| - 1]);
      assert SetOf(s) == SetOf(s[..|s| - 1]) + {s[|s| - 1]};
    }
  }

  predicate NoDuplicates<T(==)>(s: seq<T>) {
    forall i, j :: 0 <= i < j < |s| ==> s[i] != s[j]
  }

  /** One pass over a hash map: every key once, in whatever order the buckets give. */
  predicate Enumerates<T(==)>(order: seq<T>, keys: set<T>) {
    NoDuplicates(order) && SetOf(order) == keys
  }

  lemma {:induction false} NoDuplicatesSize<T>(s: seq<T>)
    requires NoDuplicates(s)
    ensures |SetOf(s)| == |s|
  {
    if s != [] {
      var init, last := s[..|s| - 1], s[|s| - 1];
      NoDuplicatesSize(init);
      assert SetOf(s) == SetOf(init) + {last};
    }
  }

  /** The total weight of a sequence. */
  function Sum<T>(w: T -> nat, s: seq<T>): nat {
    if s == [] then 0 else Sum(w, s[..|s| - 1]) + w(s[|s| - 1])
  }

  lemma {:induction false} SumStep<T>(w: T -> nat, s: seq<T>, x: T)
    ensures Sum(w, s + [x]) == Sum(w, s) + w(x)
  {
    assert (s + [x])[..|s|] == s;
  }

  lemma {:induction false} SumConcat<T>(w: T -> nat, a: seq<T>, b: seq<T>)
    ensures Sum(w, a + b) == Sum(w, a) + Sum(w, b)
  {
    if b == [] {
      assert a + b == a;
    } else {
      var init, last := b[..|b| - 1], b[|b| - 1];
      SumConcat(w, a, init);
      assert a + b == (a + init) + [last];
      SumStep(w, a + init, last);
    }
  }

  lemma SumOne<T>(w: T -> nat, x: T)
    ensures Sum(w, [x]) == w(x)
  {
    assert [x][..0] == [];
  }

  lemma {:induction false} SumSplit<T>(w: T -> nat, s: seq<T>, i: nat)
    requires i < |s|
    ensures Sum(w, s) == Sum(w, s[..i]) + w(s[i]) + Sum(w, s[i + 1..])
  {
    hide Sum;
    var before, after := s[..i], s[i + 1..];
    assert s == before + [s[i]] + after;
    SumConcat(w, before + [s[i]], after);
    SumStep(w, before, s[i]);
  }

  lemma SumUpdate<T>(w: T -> nat, s: seq<T>, i: nat, x: T)
    requires i < |s|
    ensures Sum(w, s[i := x]) + w(s[i]) == Sum(w, s) + w(x)
  {
    hide Sum;
    var t := s[i := x];
    SumSplit(w, s, i);
    SumSplit(w, t, i);
    assert t[..i] == s[..i] && t[i + 1..] == s[i + 1..];
  }

  lemma {:induction false} SumEqual<T>(w: T -> nat, s: seq<T>, each: nat)
    requires forall i :: 0 <= i < |s| ==> w(s[i]) == each
    ensures Sum(w, s) == |s| * each
  {
    if s != [] {
      SumEqual(w, s[..|s| - 1], each);
      assert |s| * each == (|s| - 1) * each + each;
    }
  }
}
