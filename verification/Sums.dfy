// Sums over the rows of a collection, the one fold that the books, the counts and the analytics
// series are all stated with.

module Sums {
  // Nothing is listed twice.
  predicate Distinct<T(==)>(s: seq<T>) {
    forall i, j :: 0 <= i < j < |s| ==> s[i] != s[j]
  }

  function Sum<T>(s: seq<T>, f: T -> int): int {
    if s == [] then 0 else Sum(s[..|s| - 1], f) + f(s[|s| - 1])
  }

  lemma SumAppend<T>(s: seq<T>, x: T, f: T -> int)
    ensures Sum(s + [x], f) == Sum(s, f) + f(x)
  {
  }

  lemma {:induction false} SumUpdate<T>(s: seq<T>, i: nat, x: T, f: T -> int)
    requires i < |s|
    ensures Sum(s[i := x], f) == Sum(s, f) - f(s[i]) + f(x)
  {
    var n := |s| - 1;
    if i == n {
      assert s[i := x][..n] == s[..n];
    } else {
      assert s[i := x][..n] == s[..n][i := x];
      SumUpdate(s[..n], i, x, f);
    }
  }

  lemma {:induction false} SumConcat<T>(s: seq<T>, t: seq<T>, f: T -> int)
    ensures Sum(s + t, f) == Sum(s, f) + Sum(t, f)
  {
    if t == [] {
      assert s + t == s;
    } else {
      var n := |t| - 1;
      assert (s + t)[..|s| + n] == s + t[..n];
      SumConcat(s, t[..n], f);
    }
  }

  // Two weightings that agree on every row have one sum.
  lemma {:induction false} SumCongruent<T>(s: seq<T>, f: T -> int, g: T -> int)
    requires forall i :: 0 <= i < |s| ==> f(s[i]) == g(s[i])
    ensures Sum(s, f) == Sum(s, g)
  {
    if s != [] {
      var t := s[..|s| - 1];
      assert forall i :: 0 <= i < |t| ==> t[i] == s[i];
      SumCongruent(t, f, g);
    }
  }

  lemma {:induction false} SumZero<T>(s: seq<T>, f: T -> int)
    requires forall i :: 0 <= i < |s| ==> f(s[i]) == 0
    ensures Sum(s, f) == 0
  {
    if s != [] {
      var t := s[..|s| - 1];
      assert forall i :: 0 <= i < |t| ==> t[i] == s[i];
      SumZero(t, f);
    }
  }

  lemma {:induction false} SumNonNegative<T>(s: seq<T>, f: T -> int)
    requires forall i :: 0 <= i < |s| ==> f(s[i]) >= 0
    ensures Sum(s, f) >= 0
  {
    if s != [] {
      var t := s[..|s| - 1];
      assert forall i :: 0 <= i < |t| ==> t[i] == s[i];
      SumNonNegative(t, f);
    }
  }

  // A row's weight is a lower bound for the sum when no weight is negative.
  lemma {:induction false} SumAtLeast<T>(s: seq<T>, f: T -> int, k: nat)
    requires k < |s|
    requires forall i :: 0 <= i < |s| ==> f(s[i]) >= 0
    ensures Sum(s, f) >= f(s[k])
  {
    var t := s[..|s| - 1];
    assert forall i :: 0 <= i < |t| ==> t[i] == s[i];
    if k == |s| - 1 {
      SumNonNegative(t, f);
    } else {
      SumAtLeast(t, f, k);
    }
  }

  // Exactly one row carries weight.
  lemma {:induction false} SumSingle<T>(s: seq<T>, f: T -> int, k: nat)
    requires k < |s|
    requires forall i :: 0 <= i < |s| && i != k ==> f(s[i]) == 0
    ensures Sum(s, f) == f(s[k])
  {
    var t := s[..|s| - 1];
    assert forall i :: 0 <= i < |t| ==> t[i] == s[i];
    if k == |s| - 1 {
      SumZero(t, f);
    } else {
      SumSingle(t, f, k);
    }
  }

  function UpTo(n: nat): (keys: seq<int>)
    ensures |keys| == n && forall i :: 0 <= i < n ==> keys[i] == i
  {
    seq(n, i => i)
  }

  // The weight of the row at an index.
  function ByIndex<T>(s: seq<T>, f: T -> int): int -> int {
    (i: int) => if 0 <= i < |s| then f(s[i]) else 0
  }

  lemma {:induction false} SumByIndex<T>(s: seq<T>, all: seq<T>, f: T -> int)
    requires s <= all
    ensures Sum(UpTo(|s|), ByIndex(all, f)) == Sum(s, f)
  {
    if s != [] {
      var n := |s| - 1;
      SumByIndex(s[..n], all, f);
      assert UpTo(|s|)[..n] == UpTo(n);
    }
  }
}
