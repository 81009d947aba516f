/**
 * The running total that every summary figure of the client is built from:
 * `list.reduce((acc, x) => acc + f(x), 0)`, a left fold over the list.
 */
module Sums {

  /** `s.reduce((acc, x) => acc + f(x), 0)`, folding from the left. */
  function SumOf<T>(s: seq<T>, f: T -> real): real
    decreases |s|
  {
    if s == [] then 0.0 else SumOf(s[..|s| - 1], f) + f(s[|s| - 1])
  }

  /** Appending one element adds exactly its term. */
  lemma SumOfAppend<T>(s: seq<T>, x: T, f: T -> real)
    ensures SumOf(s + [x], f) == SumOf(s, f) + f(x)
  {
    assert (s + [x])[..|s|] == s;
  }

  /** The sum of a concatenation is the sum of the parts. */
  lemma {:induction false} SumOfConcat<T>(a: seq<T>, b: seq<T>, f: T -> real)
    ensures SumOf(a + b, f) == SumOf(a, f) + SumOf(b, f)
    decreases |b|
  {
    if b == [] {
      assert a + b == a;
    } else {
      var b' := b[..|b| - 1];
      assert b == b' + [b[|b| - 1]];
      assert a + b == (a + b') + [b[|b| - 1]];
      SumOfAppend(a + b', b[|b| - 1], f);
      SumOfAppend(b', b[|b| - 1], f);
      SumOfConcat(a, b', f);
    }
  }

  /** Prepending one element adds exactly its term. */
  lemma SumOfCons<T>(x: T, s: seq<T>, f: T -> real)
    ensures SumOf([x] + s, f) == f(x) + SumOf(s, f)
  {
    SumOfConcat([x], s, f);
    assert [x] == [] + [x];
    SumOfAppend([], x, f);
  }

  /** The sum does not depend on the order of the list. */
  lemma {:induction false} SumOfPermutation<T>(a: seq<T>, b: seq<T>, f: T -> real)
    requires multiset(a) == multiset(b)
    ensures SumOf(a, f) == SumOf(b, f)
    decreases |a|
  {
    if a == [] {
      assert |b| == |multiset(b)| == 0;
    } else {
      var x := a[|a| - 1];
      var a' := a[..|a| - 1];
      assert a == a' + [x];
      assert x in multiset(b);
      var j :| 0 <= j < |b| && b[j] == x;
      var b' := b[..j] + b[j + 1..];
      assert b == b[..j] + ([x] + b[j + 1..]);
      assert multiset(a') == multiset(a) - multiset{x};
      assert multiset(b') == multiset(b) - multiset{x};
      SumOfPermutation(a', b', f);
      SumOfAppend(a', x, f);
      SumOfConcat(b[..j], [x] + b[j + 1..], f);
      SumOfCons(x, b[j + 1..], f);
      SumOfConcat(b[..j], b[j + 1..], f);
    }
  }

  /** A sum of terms of the shape f + g splits into the two sums. */
  lemma {:induction false} SumOfAdd<T>(s: seq<T>, f: T -> real, g: T -> real, h: T -> real)
    requires forall i :: 0 <= i < |s| ==> h(s[i]) == f(s[i]) + g(s[i])
    ensures SumOf(s, h) == SumOf(s, f) + SumOf(s, g)
    decreases |s|
  {
    if s != [] {
      SumOfAdd(s[..|s| - 1], f, g, h);
    }
  }

  /**
   * A sum of terms of the shape f - c * g splits into the two sums; this is
   * how a per-row formula with a deduction at a common rate decomposes into
   * whole-list totals.
   */
  lemma {:induction false} SumOfDeduct<T>(s: seq<T>, f: T -> real, g: T -> real, h: T -> real, c: real)
    requires forall i :: 0 <= i < |s| ==> h(s[i]) == f(s[i]) - c * g(s[i])
    ensures SumOf(s, h) == SumOf(s, f) - c * SumOf(s, g)
    decreases |s|
  {
    if s != [] {
      var s' := s[..|s| - 1];
      SumOfDeduct(s', f, g, h, c);
      var x := s[|s| - 1];
      calc {
        SumOf(s, h);
        SumOf(s', h) + h(x);
        SumOf(s', f) - c * SumOf(s', g) + f(x) - c * g(x);
        { assert c * SumOf(s', g) + c * g(x) == c * (SumOf(s', g) + g(x)); }
        SumOf(s', f) + f(x) - c * (SumOf(s', g) + g(x));
        SumOf(s, f) - c * SumOf(s, g);
      }
    }
  }

  /** A sum of terms of the shape c * g is c times the sum of g. */
  lemma {:induction false} SumOfScaled<T>(s: seq<T>, g: T -> real, h: T -> real, c: real)
    requires forall i :: 0 <= i < |s| ==> h(s[i]) == c * g(s[i])
    ensures SumOf(s, h) == c * SumOf(s, g)
    decreases |s|
  {
    if s != [] {
      var s' := s[..|s| - 1];
      SumOfScaled(s', g, h, c);
      assert c * SumOf(s', g) + c * g(s[|s| - 1]) == c * (SumOf(s', g) + g(s[|s| - 1]));
    }
  }

  /**
   * A sum of non-negative terms is non-negative, and it is zero exactly when
   * every term is zero.
   */
  lemma {:induction false} SumOfNonNegative<T>(s: seq<T>, f: T -> real)
    requires forall i :: 0 <= i < |s| ==> f(s[i]) >= 0.0
    ensures SumOf(s, f) >= 0.0
    ensures SumOf(s, f) == 0.0 <==> forall i :: 0 <= i < |s| ==> f(s[i]) == 0.0
    decreases |s|
  {
    if s != [] {
      var s' := s[..|s| - 1];
      SumOfNonNegative(s', f);
      if SumOf(s, f) == 0.0 {
        forall i | 0 <= i < |s| ensures f(s[i]) == 0.0 {
          if i < |s| - 1 {
            assert s[i] == s'[i];
          }
        }
      }
    }
  }
}
