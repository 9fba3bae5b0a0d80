/** Sums of a real-valued function over a list. */
module Sums {

  function Sum<T>(f: T -> real, s: seq<T>): real {
    if s == [] then 0.0 else Sum(f, s[..|s| - 1]) + f(s[|s| - 1])
  }

  lemma SumOfNothing<T>(f: T -> real)
    ensures Sum(f, []) == 0.0
  {
  }

  lemma {:induction false} SumConcat<T>(f: T -> real, a: seq<T>, b: seq<T>)
    ensures Sum(f, a + b) == Sum(f, a) + Sum(f, b)
  {
    if b == [] {
      assert a + b == a;
    } else {
      assert (a + b)[..|a + b| - 1] == a + b[..|b| - 1];
      SumConcat(f, a, b[..|b| - 1]);
    }
  }

  lemma {:induction false} SumOfSum<T>(f: T -> real, g: T -> real, h: T -> real, s: seq<T>)
    requires forall i :: 0 <= i < |s| ==> h(s[i]) == f(s[i]) + g(s[i])
    ensures Sum(h, s) == Sum(f, s) + Sum(g, s)
  {
    if s != [] {
      SumOfSum(f, g, h, s[..|s| - 1]);
    }
  }

  lemma {:induction false} SumOfConstant<T>(f: T -> real, c: real, s: seq<T>)
    requires forall i :: 0 <= i < |s| ==> f(s[i]) == c
    ensures Sum(f, s) == Repeated(c, |s|)
  {
    if s != [] {
      SumOfConstant(f, c, s[..|s| - 1]);
      RepeatedAdd(c, |s| - 1, 1);
    }
  }

  function Repeated(c: real, n: int): real {
    c * n as real
  }

  lemma RepeatedAdd(c: real, m: int, n: int)
    ensures Repeated(c, m + n) == Repeated(c, m) + Repeated(c, n)
  {
  }

  lemma RepeatedIsNonNegative(c: real, n: nat)
    requires c >= 0.0
    ensures Repeated(c, n) >= 0.0
  {
  }

  lemma {:induction false} SumIsMonotone<T>(f: T -> real, g: T -> real, s: seq<T>)
    requires forall i :: 0 <= i < |s| ==> f(s[i]) <= g(s[i])
    ensures Sum(f, s) <= Sum(g, s)
  {
    if s != [] {
      SumIsMonotone(f, g, s[..|s| - 1]);
    }
  }

  lemma {:induction false} SumsAgree<T>(f: T -> real, g: T -> real, s: seq<T>)
    requires forall i :: 0 <= i < |s| ==> f(s[i]) == g(s[i])
    ensures Sum(f, s) == Sum(g, s)
  {
    if s != [] {
      SumsAgree(f, g, s[..|s| - 1]);
    }
  }

  lemma SumSnoc<T>(f: T -> real, s: seq<T>, x: T)
    ensures Sum(f, s + [x]) == Sum(f, s) + f(x)
  {
    assert (s + [x])[..|s|] == s;
  }
}
