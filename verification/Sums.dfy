/** Sums over sequences. */
module Sums {

  function Sum<T>(f: T -> int, s: seq<T>): int {
    if s == [] then 0 else Sum(f, s[..|s| - 1]) + f(s[|s| - 1])
  }

  lemma SumAppend<T>(f: T -> int, s: seq<T>, x: T)
    ensures Sum(f, s + [x]) == Sum(f, s) + f(x)
  {
    assert (s + [x])[..|s|] == s;
  }

  lemma {:induction false} SumUpdate<T>(f: T -> int, s: seq<T>, i: nat, x: T)
    requires i < |s|
    ensures Sum(f, s[i := x]) == Sum(f, s) - f(s[i]) + f(x)
  {
    var n := |s| - 1;
    if i == n {
      assert s[i := x][..n] == s[..n];
    } else {
      assert s[i := x][..n] == s[..n][i := x];
      SumUpdate(f, s[..n], i, x);
    }
  }

  lemma {:induction false} SumNonNegative<T>(f: T -> int, s: seq<T>)
    requires forall x | x in s :: f(x) >= 0
    ensures Sum(f, s) >= 0
    ensures forall x | x in s :: f(x) <= Sum(f, s)
  {
    if s != [] {
      var n := |s| - 1;
      SumNonNegative(f, s[..n]);
      assert s == s[..n] + [s[n]];
    }
  }

  /** Equal terms, equal sums. */
  lemma {:induction false} SumEqual<S, T>(f: S -> int, s: seq<S>, g: T -> int, t: seq<T>)
    requires |s| == |t| && forall i | 0 <= i < |s| :: f(s[i]) == g(t[i])
    ensures Sum(f, s) == Sum(g, t)
  {
    if s != [] {
      SumEqual(f, s[..|s| - 1], g, t[..|t| - 1]);
    }
  }
}
