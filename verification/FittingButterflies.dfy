/** When greedy selection gives back the butterflies that a book is made of, and when it explains a book in full. */
module FittingButterflies {
  import opened GreedyButterflies
  import opened Rounding
  import opened Sets
  import opened StrikeBook

  ghost predicate IsButterfly(p: Pick) {
    p.lower < p.body && p.upper == 2 * p.body - p.lower && p.lots >= 1
  }

  predicate IsWing(p: Pick, x: int) {
    x == p.lower || x == p.upper
  }

  /** The book is made of these butterflies. */
  ghost predicate Makes(b: Book, own: seq<Pick>) {
    DistinctStrikes(b) && forall x :: Qty(b, x) == Taken(own, x)
  }

  /** The butterflies that do not come before `f` in the selection order. */
  function NotBefore(own: seq<Pick>, f: Pick): seq<Pick> {
    if own == [] then []
    else
      var last := own[|own| - 1];
      NotBefore(own[..|own| - 1], f) + (if KeyLess(last, f) then [] else [last])
  }

  /** How many lots of a triple of strikes the legs of these butterflies have room for. */
  function Room(own: seq<Pick>, f: Pick): int {
    var low, high, body := Taken(own, f.lower), Taken(own, f.upper), Taken(own, f.body);
    if low > 0 && high > 0 && body <= -2 then Min(Min(low, high), AbsI(body) / 2) else 0
  }

  ghost predicate Once(own: seq<Pick>) {
    forall p :: multiset(own)[p] <= 1
  }

  /** The triple is one of the butterflies if and only if its lots are what the butterflies that do not come before it
      have room for. */
  ghost predicate FitsAt(own: seq<Pick>, f: Pick) {
    f in own <==> f.lots == Room(NotBefore(own, f), f)
  }

  /** Butterflies with room for just the lots they have, where no other triple has room: earlier ones use up one of its
      strikes. */
  ghost predicate Fits(own: seq<Pick>) {
    && Once(own)
    && (forall i :: 0 <= i < |own| ==> IsButterfly(own[i]))
    && (forall f :: IsButterfly(f) ==> FitsAt(own, f))
  }

  // ---------- Sums over butterflies ----------

  lemma {:induction false} TakenConcat(a: seq<Pick>, b: seq<Pick>, x: int)
    ensures Taken(a + b, x) == Taken(a, x) + Taken(b, x)
  {
    if b == [] {
      assert a + b == a;
    } else {
      assert (a + b)[..|a + b| - 1] == a + b[..|b| - 1];
      TakenConcat(a, b[..|b| - 1], x);
    }
  }

  lemma TakenOne(p: Pick, x: int)
    ensures Taken([p], x) == -Moved(p, x)
  {
    assert [p][..0] == [];
  }

  function Less(own: seq<Pick>, k: nat): (rest: seq<Pick>)
    requires k < |own|
    ensures |rest| == |own| - 1
  {
    own[..k] + own[k + 1..]
  }

  lemma TakenLess(own: seq<Pick>, k: nat, x: int)
    requires k < |own|
    ensures Taken(own, x) == Taken(Less(own, k), x) - Moved(own[k], x)
  {
    hide Taken;
    assert own == own[..k] + [own[k]] + own[k + 1..];
    TakenConcat(own[..k] + [own[k]], own[k + 1..], x);
    TakenConcat(own[..k], [own[k]], x);
    TakenConcat(own[..k], own[k + 1..], x);
    TakenOne(own[k], x);
  }

  lemma {:induction false} NotBeforeConcat(a: seq<Pick>, b: seq<Pick>, f: Pick)
    ensures NotBefore(a + b, f) == NotBefore(a, f) + NotBefore(b, f)
  {
    hide KeyLess;
    if b == [] {
      assert a + b == a;
    } else {
      assert (a + b)[..|a + b| - 1] == a + b[..|b| - 1];
      NotBeforeConcat(a, b[..|b| - 1], f);
    }
  }

  lemma NotBeforeLess(own: seq<Pick>, k: nat, f: Pick)
    requires k < |own| && KeyLess(own[k], f)
    ensures NotBefore(Less(own, k), f) == NotBefore(own, f)
  {
    hide NotBefore, KeyLess;
    assert own == own[..k] + [own[k]] + own[k + 1..];
    NotBeforeBetween(own[..k], own[k], own[k + 1..], f);
  }

  lemma NotBeforeBetween(a: seq<Pick>, p: Pick, b: seq<Pick>, f: Pick)
    requires KeyLess(p, f)
    ensures NotBefore(a + [p] + b, f) == NotBefore(a + b, f)
  {
    hide NotBefore, KeyLess;
    NotBeforeOne(p, f);
    NotBeforeConcat(a + [p], b, f);
    NotBeforeConcat(a, [p], f);
    NotBeforeConcat(a, b, f);
  }

  lemma NotBeforeOne(p: Pick, f: Pick)
    requires KeyLess(p, f)
    ensures NotBefore([p], f) == []
  {
    assert [p][..0] == [];
  }

  lemma {:induction false} NotBeforeHolds(own: seq<Pick>, f: Pick)
    ensures forall p :: p in NotBefore(own, f) <==> p in own && !KeyLess(p, f)
  {
    hide KeyLess;
    if own != [] {
      NotBeforeHolds(own[..|own| - 1], f);
      assert own == own[..|own| - 1] + [own[|own| - 1]];
    }
  }

  lemma {:induction false} NothingBefore(own: seq<Pick>, f: Pick)
    requires forall i :: 0 <= i < |own| ==> !KeyLess(own[i], f)
    ensures NotBefore(own, f) == own
  {
    hide KeyLess;
    if own != [] {
      NothingBefore(own[..|own| - 1], f);
    }
  }

  // ---------- Taking the first butterfly ----------

  lemma TakeMakesLess(b: Book, own: seq<Pick>, k: nat)
    requires Makes(b, own) && k < |own| && IsCandidate(b, own[k])
    ensures Makes(Take(b, own[k]), Less(own, k))
  {
    hide Qty, Taken, Take, Less, IsCandidate, Moved;
    TakeMoves(b, own[k]);
    forall x
      ensures Qty(Take(b, own[k]), x) == Taken(Less(own, k), x)
    {
      TakenLess(own, k, x);
    }
  }

  /** The candidates of a book are the triples that have room in what it is made of. */
  lemma RoomIsForCandidates(b: Book, own: seq<Pick>, f: Pick)
    requires Makes(b, own)
    ensures IsCandidate(b, f) <==> IsButterfly(f) && f.lots == Room(own, f)
  {
    hide Qty, Taken;
    assert Qty(b, f.lower) == Taken(own, f.lower) && Qty(b, f.upper) == Taken(own, f.upper);
    assert Qty(b, f.body) == Taken(own, f.body);
  }

  lemma KeysAreOrdered(q: Pick, f: Pick, p: Pick)
    ensures KeyLess(q, f) && !KeyLess(p, f) ==> KeyLess(q, p)
    ensures !KeyLess(f, f)
  {
  }

  lemma {:induction false} Earliest(own: seq<Pick>) returns (k: nat)
    requires own != []
    ensures k < |own| && forall i :: 0 <= i < |own| ==> !KeyLess(own[i], own[k])
  {
    hide KeyLess;
    var n := |own| - 1;
    k := n;
    KeysAreOrdered(own[n], own[n], own[n]);
    if n > 0 {
      var m := Earliest(own[..n]);
      assert forall i :: 0 <= i < n ==> own[..n][i] == own[i];
      if !KeyLess(own[n], own[m]) {
        k := m;
      } else {
        forall i | 0 <= i < n
          ensures !KeyLess(own[i], own[n])
        {
          KeyLessIsStrict(own[n], own[m]);
          if KeyLess(own[i], own[n]) {
            KeyLessIsTransitive(own[i], own[n], own[m]);
            assert false;
          }
        }
      }
    }
  }

  /** The earliest of fitting butterflies is a candidate. */
  lemma EarliestIsCandidate(b: Book, own: seq<Pick>) returns (k: nat)
    requires Makes(b, own) && Fits(own) && own != []
    ensures k < |own| && IsCandidate(b, own[k])
    ensures forall i :: 0 <= i < |own| ==> !KeyLess(own[i], own[k])
  {
    hide KeyLess, Taken, Qty, Room;
    k := Earliest(own);
    NothingBefore(own, own[k]);
    assert own[k] in own && FitsAt(own, own[k]);
    RoomIsForCandidates(b, own, own[k]);
  }

  /** The best candidate of a book of fitting butterflies is one of them, and none of them comes before it. */
  lemma BestIsOwn(b: Book, own: seq<Pick>, p: Pick)
    requires Makes(b, own) && Fits(own) && own != [] && IsBest(b, p)
    ensures p in own && forall i :: 0 <= i < |own| ==> !KeyLess(own[i], p)
  {
    hide KeyLess, Taken, Qty, Room, IsCandidate;
    var k := EarliestIsCandidate(b, own);
    forall i | 0 <= i < |own|
      ensures !KeyLess(own[i], p)
    {
      if KeyLess(own[i], p) && own[k] != p {
        KeyLessIsTransitive(own[i], p, own[k]);
        assert false;
      }
    }
    NothingBefore(own, p);
    RoomIsForCandidates(b, own, p);
    assert FitsAt(own, p);
  }

  lemma NoDuplicate(own: seq<Pick>, k: nat)
    requires k < |own|
    ensures Once(own) <==> Once(Less(own, k)) && own[k] !in Less(own, k)
    ensures forall f :: f in own <==> f == own[k] || f in Less(own, k)
  {
    var rest := Less(own, k);
    RemoveOne(own, k);
    assert own[k] in multiset(own);
    assert multiset(own) == multiset(rest) + multiset{own[k]};
    assert forall f :: multiset(own)[f] == multiset(rest)[f] + if f == own[k] then 1 else 0;
    assert forall f :: (f in own <==> multiset(own)[f] > 0) && (f in rest <==> multiset(rest)[f] > 0);
  }

  lemma {:induction false} DistinctAreOnce(own: seq<Pick>)
    requires forall i, j :: 0 <= i < j < |own| ==> own[i] != own[j]
    ensures Once(own)
  {
    if own != [] {
      var n := |own| - 1;
      DistinctAreOnce(own[..n]);
      assert own == own[..n] + [own[n]];
      assert own[n] !in own[..n];
    }
  }

  /** Without the best butterfly, a triple that does not come behind it has no room. */
  lemma NoRoomBefore(b: Book, own: seq<Pick>, k: nat, f: Pick)
    requires Makes(b, own) && k < |own| && IsBest(b, own[k]) && IsButterfly(f) && !KeyLess(own[k], f)
    ensures f.lots != Room(Less(own, k), f)
  {
    hide KeyLess, Taken, Qty, Room, IsCandidate, Take, Less;
    TakeMakesLess(b, own, k);
    RoomIsForCandidates(Take(b, own[k]), Less(own, k), f);
    if IsCandidate(Take(b, own[k]), f) {
      LaterCandidate(b, own[k], f);
    }
  }

  /** Taking the best butterfly does not change which triples fit. */
  lemma FitsAtLess(b: Book, own: seq<Pick>, k: nat, f: Pick)
    requires Makes(b, own) && k < |own| && IsBest(b, own[k]) && own[k] !in Less(own, k) && IsButterfly(f)
    requires forall i :: 0 <= i < |own| ==> !KeyLess(own[i], own[k])
    ensures FitsAt(own, f) <==> FitsAt(Less(own, k), f)
  {
    hide KeyLess, Taken, Qty, Room, IsCandidate, NotBefore;
    var p, rest := own[k], Less(own, k);
    NoDuplicate(own, k);
    if KeyLess(p, f) {
      NotBeforeLess(own, k, f);
      KeysAreOrdered(p, p, p);
    } else {
      forall i | 0 <= i < |own|
        ensures !KeyLess(own[i], f)
      {
        KeysAreOrdered(own[i], f, p);
      }
      NothingBefore(own, f);
      assert forall i :: 0 <= i < |rest| ==> rest[i] == own[if i < k then i else i + 1];
      NothingBefore(rest, f);
      NoRoomBefore(b, own, k, f);
      RoomIsForCandidates(b, own, f);
      RoomIsForCandidates(b, own, p);
    }
  }

  lemma FitsLess(b: Book, own: seq<Pick>, k: nat)
    requires Makes(b, own) && k < |own| && IsBest(b, own[k]) && own[k] !in Less(own, k)
    requires forall i :: 0 <= i < |own| ==> !KeyLess(own[i], own[k])
    ensures Fits(own) <==> Fits(Less(own, k))
  {
    hide KeyLess, Taken, Qty, Room, IsCandidate, FitsAt, Less, Once, Makes;
    NoDuplicate(own, k);
    forall f | IsButterfly(f)
      ensures FitsAt(own, f) <==> FitsAt(Less(own, k), f)
    {
      FitsAtLess(b, own, k, f);
    }
    RoomIsForCandidates(b, own, own[k]);
    AllButterflies(own, k);
  }

  lemma AllButterflies(own: seq<Pick>, k: nat)
    requires k < |own| && IsButterfly(own[k])
    ensures (forall i :: 0 <= i < |own| ==> IsButterfly(own[i]))
       <==> forall i :: 0 <= i < |own| - 1 ==> IsButterfly(Less(own, k)[i])
  {
    hide IsButterfly, Less, Once;
    NoDuplicate(own, k);
    AllIn(own);
    AllIn(Less(own, k));
  }

  lemma AllIn(own: seq<Pick>)
    ensures (forall i :: 0 <= i < |own| ==> IsButterfly(own[i])) <==> forall p :: p in own ==> IsButterfly(p)
  {
    hide IsButterfly;
    if forall p :: p in own ==> IsButterfly(p) {
      forall i | 0 <= i < |own|
        ensures IsButterfly(own[i])
      {
        assert own[i] in own;
      }
    }
  }

  // ---------- Greedy selection, step by step from the front ----------

  lemma {:induction false} AfterTail(b: Book, p: Pick, rest: seq<Pick>)
    ensures After(b, [p] + rest) == After(Take(b, p), rest)
  {
    hide Take;
    if rest == [] {
      assert ([p] + rest)[..0] == [];
      assert After(b, []) == b;
    } else {
      var n := |rest| - 1;
      assert ([p] + rest)[..n + 1] == [p] + rest[..n];
      AfterTail(b, p, rest[..n]);
    }
  }

  lemma GreedyTail(b: Book, picks: seq<Pick>)
    requires Greedy(b, picks) && picks != []
    ensures IsBest(b, picks[0]) && Greedy(Take(b, picks[0]), picks[1..])
  {
    hide Take, IsBest, Exhausted;
    var p, rest := picks[0], picks[1..];
    assert picks == [p] + rest;
    StepAt(b, picks, 0);
    assert picks[..0] == [] && After(b, []) == b;
    forall i | 0 <= i < |rest|
      ensures IsBest(After(Take(b, p), rest[..i]), rest[i])
    {
      StepAt(b, picks, i + 1);
      assert picks[..i + 1] == [p] + rest[..i];
      AfterTail(b, p, rest[..i]);
    }
    AfterTail(b, p, rest);
  }

  lemma KeyLessIsStrict(p: Pick, q: Pick)
    requires KeyLess(p, q)
    ensures !KeyLess(q, p)
  {
  }

  lemma NoPicks(b: Book, picks: seq<Pick>)
    requires Exhausted(b) && Greedy(b, picks)
    ensures picks == []
  {
    if picks != [] {
      GreedyTail(b, picks);
      assert false;
    }
  }

  lemma OneMoreEach(own: seq<Pick>, k: nat, picks: seq<Pick>)
    requires k < |own| && picks != [] && own[k] == picks[0]
    ensures multiset(picks[1..]) == multiset(Less(own, k)) <==> multiset(picks) == multiset(own)
  {
    assert picks[..0] + picks[1..] == picks[1..];
    OneLessEach(picks, 0, own, k);
  }

  // ---------- When butterflies are given back ----------

  /** Picks come in their order, so the first one comes before all others. */
  lemma FirstPickIsEarliest(b: Book, own: seq<Pick>, k: nat, picks: seq<Pick>)
    requires Makes(b, own) && Greedy(b, picks) && picks != [] && k < |own| && own[k] == picks[0]
    requires multiset(picks) == multiset(own)
    ensures own[k] !in Less(own, k)
    ensures forall i :: 0 <= i < |own| ==> !KeyLess(own[i], own[k])
  {
    hide KeyLess, Less;
    SelectionOrderIncreases(b, picks);
    OneMoreEach(own, k, picks);
    KeysAreOrdered(own[k], own[k], own[k]);
    forall j | 0 < j < |picks|
      ensures picks[j] != own[k]
    {
      assert KeyLess(picks[0], picks[j]);
    }
    assert own[k] !in multiset(picks[1..]);
    forall i | 0 <= i < |own|
      ensures !KeyLess(own[i], own[k])
    {
      assert own[i] in multiset(picks);
      var j :| 0 <= j < |picks| && picks[j] == own[i];
      if j > 0 {
        KeyLessIsStrict(picks[0], picks[j]);
      }
    }
  }

  /** Greedy selection gives back exactly the butterflies of which a book is made if and only if they fit. */
  lemma {:induction false} RecoveredIffFits(b: Book, own: seq<Pick>, picks: seq<Pick>)
    requires Makes(b, own) && Greedy(b, picks)
    ensures Fits(own) <==> multiset(picks) == multiset(own)
    decreases |picks|, 1
  {
    hide Qty, Taken, Take, Less, KeyLess, Makes, IsCandidate, Fits, Greedy, IsBest;
    if picks == [] {
      NothingIsGivenBack(b, own);
    } else {
      GreedyTail(b, picks);
      SomethingIsMade(b, own, picks[0]);
      if Fits(own) {
        BestIsOwn(b, own, picks[0]);
        var k :| 0 <= k < |own| && own[k] == picks[0];
        FittingIsOnce(own, k);
        FirstFits(b, own, k, picks);
      } else if multiset(picks) == multiset(own) {
        assert picks[0] in multiset(own);
        var k :| 0 <= k < |own| && own[k] == picks[0];
        FirstPickIsEarliest(b, own, k, picks);
        FirstFits(b, own, k, picks);
      }
    }
  }

  lemma {:induction false} FirstFits(b: Book, own: seq<Pick>, k: nat, picks: seq<Pick>)
    requires Makes(b, own) && Greedy(b, picks) && picks != [] && k < |own| && own[k] == picks[0]
    requires own[k] !in Less(own, k) && forall i :: 0 <= i < |own| ==> !KeyLess(own[i], own[k])
    ensures Fits(own) <==> multiset(picks) == multiset(own)
    decreases |picks|, 0
  {
    hide Qty, Taken, Take, Less, KeyLess, Makes, IsCandidate, Fits, Greedy;
    GreedyTail(b, picks);
    TakeMakesLess(b, own, k);
    FitsLess(b, own, k);
    RecoveredIffFits(Take(b, own[k]), Less(own, k), picks[1..]);
    OneMoreEach(own, k, picks);
  }

  lemma FittingIsOnce(own: seq<Pick>, k: nat)
    requires Fits(own) && k < |own|
    ensures own[k] !in Less(own, k)
  {
    NoDuplicate(own, k);
  }

  lemma SomethingIsMade(b: Book, own: seq<Pick>, p: Pick)
    requires Makes(b, own) && IsBest(b, p)
    ensures own != []
  {
  }

  lemma NothingIsGivenBack(b: Book, own: seq<Pick>)
    requires Makes(b, own) && Greedy(b, [])
    ensures Fits(own) <==> multiset([]) == multiset(own)
  {
    hide Qty, KeyLess;
    if own == [] {
      assert forall f :: NotBefore(own, f) == [];
    } else {
      assert own[0] in multiset(own);
      if Fits(own) {
        var k := EarliestIsCandidate(b, own);
      }
    }
  }

  // ---------- When nothing remains ----------

  lemma {:induction false} TakenIgnoresOrder(a: seq<Pick>, b: seq<Pick>, x: int)
    requires multiset(a) == multiset(b)
    ensures Taken(a, x) == Taken(b, x)
    decreases |a|
  {
    hide Taken, Moved;
    if a == [] {
      assert |multiset(b)| == 0;
    } else {
      var n := |a| - 1;
      var k := Twin(a, b);
      TakenIgnoresOrder(a[..n], Less(b, k), x);
      TakenLess(b, k, x);
      assert a == a[..n] + [a[n]];
      TakenConcat(a[..n], [a[n]], x);
      TakenOne(a[n], x);
    }
  }

  lemma NothingRemains(b: Book, own: seq<Pick>, picks: seq<Pick>)
    requires Makes(b, own) && Greedy(b, picks) && multiset(picks) == multiset(own)
    ensures NothingLeft(After(b, picks))
  {
    hide Qty, Taken, After;
    var c := After(b, picks);
    StepsKeepBook(b, picks);
    forall i | 0 <= i < |c|
      ensures c[i].qty == 0
    {
      QtyAt(c, i);
      QuantityIsConserved(b, picks, c[i].strike);
      TakenIgnoresOrder(picks, own, c[i].strike);
    }
  }

  /** The book is made of some fitting butterflies. */
  ghost predicate IsFit(b: Book) {
    exists own :: Makes(b, own) && Fits(own)
  }

  /** Greedy selection explains a book in full if and only if it is made of some fitting butterflies. */
  lemma ExplainedIffFit(b: Book, picks: seq<Pick>)
    requires DistinctStrikes(b) && Greedy(b, picks)
    ensures NothingLeft(After(b, picks)) <==> IsFit(b)
  {
    hide Greedy, After, NothingLeft, Fits, Makes;
    if NothingLeft(After(b, picks)) {
      FullPicksMakeTheBook(b, picks);
      RecoveredIffFits(b, picks, picks);
      assert Makes(b, picks) && Fits(picks);
    }
    if own :| Makes(b, own) && Fits(own) {
      RecoveredIffFits(b, own, picks);
      NothingRemains(b, own, picks);
    }
  }

  lemma FullPicksMakeTheBook(b: Book, picks: seq<Pick>)
    requires DistinctStrikes(b) && Greedy(b, picks) && NothingLeft(After(b, picks))
    ensures Makes(b, picks)
  {
    hide Qty, After, Taken;
    forall x
      ensures Qty(b, x) == Taken(picks, x)
    {
      QuantityIsConserved(b, picks, x);
      AllZero(After(b, picks), x);
    }
  }
}
