/** Sums over sequences: the one counting tool used by every accounting theorem. */
module Sums {

  function Sum<T>(f: T -> int, s: seq<T>): int
  {
    if s == [] then 0 else Sum(f, s[..|s| - 1]) + f(s[|s| - 1])
  }

  lemma SumAppend<T>(f: T -> int, s: seq<T>, x: T)
    ensures Sum(f, s + [x]) == Sum(f, s) + f(x)
  {
    assert (s + [x])[..|s|] == s;
  }

  lemma {:induction false} SumUpdate<T>(f: T -> int, s: seq<T>, i: nat, x: T)
    requires i < |s|
    ensures Sum(f, s[i := x]) == Sum(f, s) - f(s[i]) + f(x)
  {
    var n := |s| - 1;
    if i == n {
      assert s[i := x][..n] == s[..n];
    } else {
      SumUpdate(f, s[..n], i, x);
      assert s[i := x][..n] == s[..n][i := x];
    }
  }

  /** Pointwise order carries over to sums. */
  lemma {:induction false} SumMonotone<T>(f: T -> int, g: T -> int, s: seq<T>)
    requires forall i :: 0 <= i < |s| ==> f(s[i]) <= g(s[i])
    ensures Sum(f, s) <= Sum(g, s)
  {
    if s != [] {
      SumMonotone(f, g, s[..|s| - 1]);
    }
  }

  /** A sum of non-negative terms is at least any one of them. */
  lemma {:induction false} SumAtLeast<T>(f: T -> int, s: seq<T>, i: nat)
    requires forall k :: 0 <= k < |s| ==> f(s[k]) >= 0
    requires i < |s|
    ensures Sum(f, s) >= f(s[i])
    ensures Sum(f, s) >= 0
  {
    var n := |s| - 1;
    if i < n {
      SumAtLeast(f, s[..n], i);
    } else {
      SumNonNegative(f, s[..n]);
    }
  }

  lemma {:induction false} SumNonNegative<T>(f: T -> int, s: seq<T>)
    requires forall k :: 0 <= k < |s| ==> f(s[k]) >= 0
    ensures Sum(f, s) >= 0
  {
    if s != [] {
      SumNonNegative(f, s[..|s| - 1]);
    }
  }

  lemma {:induction false} SumZero<T>(f: T -> int, s: seq<T>)
    requires forall k :: 0 <= k < |s| ==> f(s[k]) == 0
    ensures Sum(f, s) == 0
  {
    if s != [] {
      SumZero(f, s[..|s| - 1]);
    }
  }

  /** Two terms of a non-negative sum at different places add up. */
  lemma {:induction false} SumAtLeastTwo<T>(f: T -> int, s: seq<T>, i: nat, j: nat)
    requires forall k :: 0 <= k < |s| ==> f(s[k]) >= 0
    requires i < j < |s|
    ensures Sum(f, s) >= f(s[i]) + f(s[j])
  {
    var n := |s| - 1;
    if j < n {
      SumAtLeastTwo(f, s[..n], i, j);
    } else {
      SumAtLeast(f, s[..n], i);
    }
  }

  /** The sum is additive in the summand. */
  lemma {:induction false} SumAdd<T>(f: T -> int, g: T -> int, h: T -> int, s: seq<T>)
    requires forall i :: 0 <= i < |s| ==> h(s[i]) == f(s[i]) + g(s[i])
    ensures Sum(h, s) == Sum(f, s) + Sum(g, s)
  {
    if s != [] {
      SumAdd(f, g, h, s[..|s| - 1]);
    }
  }

  /** A sum of zeros and ones with at most one one. */
  lemma {:induction false} SumAtMostOne<T>(f: T -> int, s: seq<T>)
    requires forall k :: 0 <= k < |s| ==> f(s[k]) == 0 || f(s[k]) == 1
    requires forall i, j :: 0 <= i < j < |s| ==> f(s[i]) == 0 || f(s[j]) == 0
    ensures Sum(f, s) <= 1
  {
    if s != [] {
      var n := |s| - 1;
      if f(s[n]) == 1 {
        SumZero(f, s[..n]);
      } else {
        SumAtMostOne(f, s[..n]);
      }
    }
  }
}
