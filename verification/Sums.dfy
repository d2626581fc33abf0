/** Sums of a weight over a sequence: per-thread contributions and prefix sums of histories. */
module Sums {

  function Sum<T>(s: seq<T>, f: T -> int): int {
    if s == [] then 0 else Sum(s[..|s| - 1], f) + f(s[|s| - 1])
  }

  lemma SumAppend<T>(s: seq<T>, f: T -> int, x: T)
    ensures Sum(s + [x], f) == Sum(s, f) + f(x)
  {
    assert (s + [x])[..|s|] == s;
  }

  lemma {:induction false} SumConcat<T>(a: seq<T>, b: seq<T>, f: T -> int)
    ensures Sum(a + b, f) == Sum(a, f) + Sum(b, f)
    decreases |b|
  {
    if b == [] {
      assert a + b == a;
    } else {
      assert (a + b)[..|a + b| - 1] == a + b[..|b| - 1];
      SumConcat(a, b[..|b| - 1], f);
    }
  }

  lemma {:induction false} SumUpdate<T>(s: seq<T>, f: T -> int, i: nat, x: T)
    requires i < |s|
    ensures Sum(s[i := x], f) == Sum(s, f) - f(s[i]) + f(x)
    decreases |s|
  {
    var n := |s| - 1;
    if i == n {
      assert s[i := x][..n] == s[..n];
    } else {
      assert s[i := x][..n] == s[..n][i := x];
      SumUpdate(s[..n], f, i, x);
    }
  }

  /** Pointwise smaller weights have a smaller sum. */
  lemma {:induction false} SumMono<T, U>(s: seq<T>, f: T -> int, s': seq<U>, g: U -> int)
    requires |s| == |s'| && forall i :: 0 <= i < |s| ==> f(s[i]) <= g(s'[i])
    ensures Sum(s, f) <= Sum(s', g)
    decreases |s|
  {
    if s != [] { SumMono(s[..|s| - 1], f, s'[..|s| - 1], g); }
  }

  lemma {:induction false} SumNonNegative<T>(s: seq<T>, f: T -> int)
    requires forall i :: 0 <= i < |s| ==> f(s[i]) >= 0
    ensures Sum(s, f) >= 0
    ensures forall i :: 0 <= i < |s| ==> f(s[i]) <= Sum(s, f)
    decreases |s|
  {
    if s != [] { SumNonNegative(s[..|s| - 1], f); }
  }

  lemma {:induction false} SumZero<T>(s: seq<T>, f: T -> int)
    requires forall i :: 0 <= i < |s| ==> f(s[i]) == 0
    ensures Sum(s, f) == 0
    decreases |s|
  {
    if s != [] { SumZero(s[..|s| - 1], f); }
  }

  function Min(a: int, b: int): int { if a < b then a else b }

  lemma Prefix<T>(log: seq<T>, a: nat, b: nat, n: nat)
    requires a <= b <= n <= |log|
    ensures log[a..b] == log[..n][a..b]
  {
  }
}
