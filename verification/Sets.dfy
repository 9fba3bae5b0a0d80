/** Small facts about finite sets and lists of numbers. */
module Sets {

  predicate Contains(ids: seq<int>, id: int) {
    exists k :: 0 <= k < |ids| && ids[k] == id
  }

  lemma ContainsSnoc(ids: seq<int>, id: int)
    ensures forall x :: Contains(ids + [id], x) <==> x == id || Contains(ids, x)
  {
    forall x
      ensures Contains(ids + [id], x) <==> x == id || Contains(ids, x)
    {
      if Contains(ids, x) {
        var k :| 0 <= k < |ids| && ids[k] == x;
        assert (ids + [id])[k] == x;
      }
      assert (ids + [id])[|ids|] == id;
    }
  }

  ghost predicate Rising(ids: seq<int>) {
    forall i, j :: 0 <= i < j < |ids| ==> ids[i] < ids[j]
  }

  lemma LastIsGreatest(ids: seq<int>, id: int)
    requires Rising(ids) && Contains(ids, id)
    ensures ids != [] && id <= ids[|ids| - 1]
    ensures id == ids[|ids| - 1] || Contains(ids[..|ids| - 1], id)
  {
    var k :| 0 <= k < |ids| && ids[k] == id;
    if k < |ids| - 1 {
      assert ids[..|ids| - 1][k] == id;
    }
  }

  lemma RisingPrefix(ids: seq<int>)
    requires Rising(ids) && ids != []
    ensures Rising(ids[..|ids| - 1])
    ensures forall x :: Contains(ids[..|ids| - 1], x) <==> Contains(ids, x) && x != ids[|ids| - 1]
  {
    var n := |ids| - 1;
    assert ids == ids[..n] + [ids[n]];
    ContainsSnoc(ids[..n], ids[n]);
  }

  /** A rising list is determined by the numbers on it. */
  lemma {:induction false} SameRising(a: seq<int>, b: seq<int>)
    requires Rising(a) && Rising(b)
    requires forall x :: Contains(a, x) <==> Contains(b, x)
    ensures a == b
  {
    if a == [] {
      if b != [] {
        assert Contains(b, b[0]);
        assert false;
      }
    } else {
      var n := |a| - 1;
      assert Contains(a, a[n]);
      LastIsGreatest(b, a[n]);
      assert Contains(b, b[|b| - 1]);
      LastIsGreatest(a, b[|b| - 1]);
      RisingPrefix(a);
      RisingPrefix(b);
      forall x
        ensures Contains(a[..n], x) <==> Contains(b[..|b| - 1], x)
      {
        assert Contains(a, x) <==> Contains(b, x);
      }
      SameRising(a[..n], b[..|b| - 1]);
    }
  }

  function Elements<T(==)>(s: seq<T>): set<T> {
    set x | x in s
  }

  /** When every element of one list occurs in another, it has no more distinct elements. */
  lemma FewerElements<T>(a: seq<T>, b: seq<T>)
    requires forall i :: 0 <= i < |a| ==> a[i] in b
    ensures Elements(a) <= Elements(b)
    ensures |Elements(a)| <= |Elements(b)|
  {
    assert Elements(b) == Elements(a) + (Elements(b) - Elements(a));
  }

  lemma {:induction false} ElementsAreFew<T>(s: seq<T>)
    ensures |Elements(s)| <= |s|
  {
    if s != [] {
      var n := |s| - 1;
      ElementsAreFew(s[..n]);
      assert s == s[..n] + [s[n]];
      assert Elements(s) == Elements(s[..n]) + {s[n]};
    }
  }

  lemma OneMoreElement<T>(s: seq<T>, x: T)
    requires x !in s
    ensures |Elements(s + [x])| == |Elements(s)| + 1
  {
    assert Elements(s + [x]) == Elements(s) + {x};
  }

  /** Two lists with the same elements: the last one of the first occurs in the second, and without it they
      still have the same elements. */
  lemma Twin<T>(a: seq<T>, b: seq<T>) returns (k: nat)
    requires multiset(a) == multiset(b) && a != []
    ensures k < |b| && b[k] == a[|a| - 1]
    ensures multiset(a[..|a| - 1]) == multiset(b[..k] + b[k + 1..])
  {
    var n := |a| - 1;
    assert a == a[..n] + [a[n]];
    assert a[n] in multiset(a);
    assert a[n] in multiset(b);
    k :| 0 <= k < |b| && b[k] == a[n];
    RemoveOne(b, k);
    assert multiset(a[..n]) == multiset(a) - multiset{a[n]};
  }

  lemma SameWithout<T>(a: multiset<T>, b: multiset<T>, x: T)
    requires x in a && x in b
    ensures a - multiset{x} == b - multiset{x} <==> a == b
  {
    assert a == a - multiset{x} + multiset{x};
    assert b == b - multiset{x} + multiset{x};
  }

  /** Taking one element that is in both away does not change whether two lists have the same elements. */
  lemma OneLessEach<T>(a: seq<T>, i: nat, b: seq<T>, k: nat)
    requires i < |a| && k < |b| && a[i] == b[k]
    ensures multiset(a[..i] + a[i + 1..]) == multiset(b[..k] + b[k + 1..]) <==> multiset(a) == multiset(b)
  {
    RemoveOne(a, i);
    RemoveOne(b, k);
    assert a[i] in multiset(a) && b[k] in multiset(b);
    SameWithout(multiset(a), multiset(b), a[i]);
  }

  lemma RemoveOne<T>(b: seq<T>, k: nat)
    requires k < |b|
    ensures multiset(b[..k] + b[k + 1..]) == multiset(b) - multiset{b[k]}
  {
    assert b == b[..k] + [b[k]] + b[k + 1..];
    assert multiset(b) == multiset(b[..k]) + multiset{b[k]} + multiset(b[k + 1..]);
  }
}
