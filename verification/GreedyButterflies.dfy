/** Pulling long butterflies out of a book of strikes, narrowest first: what a complete greedy decomposition is,
    and what it conserves, selects and leaves. */
module GreedyButterflies {
  import opened Rounding
  import opened Sums
  import opened StrikeBook

  /** One structure: `lots` of lower and upper bought, twice as many of the body sold. */
  datatype Pick = Pick(lower: int, body: int, upper: int, lots: int)

  function AbsI(x: int): int {
    if x < 0 then -x else x
  }

  /** A short body of at least two between long wings at equal distance, taken as often as the book allows. */
  ghost predicate IsCandidate(b: Book, p: Pick) {
    && Qty(b, p.body) <= -2
    && p.lower < p.body
    && Qty(b, p.lower) > 0
    && p.upper == 2 * p.body - p.lower
    && Qty(b, p.upper) > 0
    && p.lots == Min(Min(Qty(b, p.lower), Qty(b, p.upper)), AbsI(Qty(b, p.body)) / 2)
  }

  /** Selection order: narrower first, then the body nearer to zero, then the lower strikes. */
  predicate KeyLess(p: Pick, q: Pick) {
    var v, w := p.body - p.lower, q.body - q.lower;
    || v < w
    || (v == w && AbsI(p.body) < AbsI(q.body))
    || (v == w && AbsI(p.body) == AbsI(q.body) && p.lower < q.lower)
    || (v == w && AbsI(p.body) == AbsI(q.body) && p.lower == q.lower && p.upper < q.upper)
  }

  ghost predicate IsBest(b: Book, p: Pick) {
    IsCandidate(b, p) && forall q :: IsCandidate(b, q) ==> q == p || KeyLess(p, q)
  }

  ghost predicate Exhausted(b: Book) {
    forall q :: !IsCandidate(b, q)
  }

  function Take(b: Book, p: Pick): Book {
    Add(Add(Add(b, p.lower, -p.lots), p.body, 2 * p.lots), p.upper, -p.lots)
  }

  function After(b: Book, picks: seq<Pick>): Book {
    if picks == [] then b else Take(After(b, picks[..|picks| - 1]), picks[|picks| - 1])
  }

  /** Every pick is the best one at its time. */
  ghost predicate GreedySteps(b: Book, picks: seq<Pick>) {
    forall i :: 0 <= i < |picks| ==> IsBest(After(b, picks[..i]), picks[i])
  }

  /** A complete greedy decomposition: nothing is left to take. */
  ghost predicate Greedy(b: Book, picks: seq<Pick>) {
    GreedySteps(b, picks) && Exhausted(After(b, picks))
  }

  lemma GreedyPrefix(b: Book, picks: seq<Pick>)
    requires GreedySteps(b, picks) && picks != []
    ensures var n := |picks| - 1;
            GreedySteps(b, picks[..n]) && IsBest(After(b, picks[..n]), picks[n])
  {
    var n := |picks| - 1;
    forall i | 0 <= i < n
      ensures IsBest(After(b, picks[..n][..i]), picks[..n][i])
    {
      assert picks[..n][..i] == picks[..i];
    }
  }

  lemma GreedyExtend(b: Book, picks: seq<Pick>, p: Pick)
    requires GreedySteps(b, picks) && IsBest(After(b, picks), p)
    ensures GreedySteps(b, picks + [p]) && After(b, picks + [p]) == Take(After(b, picks), p)
  {
    forall i | 0 <= i < |picks + [p]|
      ensures IsBest(After(b, (picks + [p])[..i]), (picks + [p])[i])
    {
      assert (picks + [p])[..i] == picks[..i];
      assert picks[..|picks|] == picks;
    }
    assert (picks + [p])[..|picks|] == picks;
  }

  // ---------- One pick ----------

  ghost predicate SameStrikes(b: Book, c: Book) {
    |b| == |c| && forall i :: 0 <= i < |b| ==> b[i].strike == c[i].strike
  }

  function Moved(p: Pick, x: int): int {
    if x == p.lower || x == p.upper then -p.lots else if x == p.body then 2 * p.lots else 0
  }

  lemma CandidateIsListed(b: Book, p: Pick)
    requires IsCandidate(b, p)
    ensures Lists(b, p.lower) && Lists(b, p.body) && Lists(b, p.upper)
  {
    if !Lists(b, p.lower) { UnlistedIsZero(b, p.lower); }
    if !Lists(b, p.body) { UnlistedIsZero(b, p.body); }
    if !Lists(b, p.upper) { UnlistedIsZero(b, p.upper); }
  }

  lemma ListsFollowStrikes(b: Book, c: Book, x: int)
    requires SameStrikes(b, c)
    ensures Lists(b, x) ==> Lists(c, x)
  {
  }

  lemma TakeMoves(b: Book, p: Pick)
    requires DistinctStrikes(b) && IsCandidate(b, p)
    ensures DistinctStrikes(Take(b, p)) && SameStrikes(b, Take(b, p))
    ensures forall x :: Qty(Take(b, p), x) == Qty(b, x) + Moved(p, x)
  {
    hide Qty, Add;
    var b1 := Add(b, p.lower, -p.lots);
    var b2 := Add(b1, p.body, 2 * p.lots);
    CandidateIsListed(b, p);
    AddChangesOne(b, p.lower, -p.lots);
    ListsFollowStrikes(b, b1, p.body);
    AddChangesOne(b1, p.body, 2 * p.lots);
    ListsFollowStrikes(b, b2, p.upper);
    AddChangesOne(b2, p.upper, -p.lots);
  }

  /** Toward zero, and never across it. */
  ghost predicate Shrunk(b: Book, c: Book) {
    forall x :: 0 <= Qty(c, x) <= Qty(b, x) || Qty(b, x) <= Qty(c, x) <= 0
  }

  predicate Usable(qty: int) {
    qty > 0 || qty <= -2
  }

  lemma TakeShrinks(b: Book, p: Pick)
    requires DistinctStrikes(b) && IsCandidate(b, p)
    ensures p.lots >= 1 && Shrunk(b, Take(b, p))
    ensures !Usable(Qty(Take(b, p), p.lower)) || !Usable(Qty(Take(b, p), p.upper)) || !Usable(Qty(Take(b, p), p.body))
  {
    hide Qty, Take;
    TakeMoves(b, p);
    HalfOf(AbsI(Qty(b, p.body)));
  }

  lemma HalfOf(n: int)
    ensures 2 * (n / 2) <= n < 2 * (n / 2) + 2
  {
  }

  /** What can be taken after a pick could be taken before, and comes later in the selection order. */
  lemma LaterCandidate(b: Book, p: Pick, q: Pick)
    requires DistinctStrikes(b) && IsBest(b, p) && IsCandidate(Take(b, p), q)
    ensures KeyLess(p, q)
  {
    hide Qty, Take;
    TakeMoves(b, p);
    TakeShrinks(b, p);
    var before := q.(lots := Min(Min(Qty(b, q.lower), Qty(b, q.upper)), AbsI(Qty(b, q.body)) / 2));
    assert IsCandidate(b, before);
    assert Usable(Qty(Take(b, p), q.lower)) && Usable(Qty(Take(b, p), q.upper)) && Usable(Qty(Take(b, p), q.body));
  }

  lemma KeyLessIsTransitive(p: Pick, q: Pick, r: Pick)
    requires KeyLess(p, q) && KeyLess(q, r)
    ensures KeyLess(p, r)
  {
  }

  // ---------- Whole decompositions ----------

  lemma {:induction false} StepsKeepBook(b: Book, picks: seq<Pick>)
    requires DistinctStrikes(b) && GreedySteps(b, picks)
    ensures DistinctStrikes(After(b, picks)) && SameStrikes(b, After(b, picks)) && Shrunk(b, After(b, picks))
  {
    hide Take;
    if picks != [] {
      var n := |picks| - 1;
      GreedyPrefix(b, picks);
      StepsKeepBook(b, picks[..n]);
      TakeMoves(After(b, picks[..n]), picks[n]);
      TakeShrinks(After(b, picks[..n]), picks[n]);
      ShrunkComposes(b, After(b, picks[..n]), After(b, picks));
    }
  }

  lemma ShrunkComposes(a: Book, b: Book, c: Book)
    requires Shrunk(a, b) && Shrunk(b, c)
    ensures Shrunk(a, c)
  {
    hide Qty;
    forall x
      ensures 0 <= Qty(c, x) <= Qty(a, x) || Qty(a, x) <= Qty(c, x) <= 0
    {
      assert 0 <= Qty(b, x) <= Qty(a, x) || Qty(a, x) <= Qty(b, x) <= 0;
    }
  }

  /** The quantity of a strike is what is left plus what the picks took, strike by strike. */
  function Taken(picks: seq<Pick>, x: int): int {
    if picks == [] then 0 else Taken(picks[..|picks| - 1], x) - Moved(picks[|picks| - 1], x)
  }

  lemma {:induction false} QuantityIsConserved(b: Book, picks: seq<Pick>, x: int)
    requires DistinctStrikes(b) && GreedySteps(b, picks)
    ensures Qty(b, x) == Qty(After(b, picks), x) + Taken(picks, x)
  {
    hide Take, Qty;
    if picks != [] {
      var n := |picks| - 1;
      GreedyPrefix(b, picks);
      StepsKeepBook(b, picks[..n]);
      QuantityIsConserved(b, picks[..n], x);
      TakeMoves(After(b, picks[..n]), picks[n]);
    }
  }

  lemma {:induction false} LaterThanAll(b: Book, picks: seq<Pick>, q: Pick)
    requires DistinctStrikes(b) && GreedySteps(b, picks) && IsCandidate(After(b, picks), q)
    ensures forall i :: 0 <= i < |picks| ==> KeyLess(picks[i], q)
  {
    hide Take, KeyLess;
    if picks != [] {
      var n := |picks| - 1;
      var mid := After(b, picks[..n]);
      GreedyPrefix(b, picks);
      StepsKeepBook(b, picks[..n]);
      LaterCandidate(mid, picks[n], q);
      LaterThanAll(b, picks[..n], picks[n]);
      forall i | 0 <= i < n
        ensures KeyLess(picks[i], q)
      {
        assert KeyLess(picks[..n][i], picks[n]);
        KeyLessIsTransitive(picks[i], picks[n], q);
      }
    }
  }

  /** Structures are selected in strictly increasing order; so none is selected twice. */
  lemma SelectionOrderIncreases(b: Book, picks: seq<Pick>)
    requires DistinctStrikes(b) && GreedySteps(b, picks)
    ensures forall i, j :: 0 <= i < j < |picks| ==> KeyLess(picks[i], picks[j])
  {
    hide Take, KeyLess;
    forall i, j | 0 <= i < j < |picks|
      ensures KeyLess(picks[i], picks[j])
    {
      assert GreedySteps(b, picks[..j]) by {
        forall k | 0 <= k < j
          ensures IsBest(After(b, picks[..j][..k]), picks[..j][k])
        {
          assert picks[..j][..k] == picks[..k];
        }
      }
      assert IsBest(After(b, picks[..j]), picks[j]);
      LaterThanAll(b, picks[..j], picks[j]);
      assert picks[..j][i] == picks[i];
    }
  }

  // ---------- How many structures ----------

  function UsableCount(b: Book): nat {
    if b == [] then 0 else UsableCount(b[..|b| - 1]) + (if Usable(b[|b| - 1].qty) then 1 else 0)
  }

  lemma {:induction false} CountFollows(b: Book, c: Book)
    requires |b| == |c| && forall i :: 0 <= i < |b| ==> Usable(c[i].qty) ==> Usable(b[i].qty)
    ensures UsableCount(c) <= UsableCount(b)
    ensures (exists i :: 0 <= i < |b| && Usable(b[i].qty) && !Usable(c[i].qty)) ==> UsableCount(c) < UsableCount(b)
  {
    if b != [] {
      var n := |b| - 1;
      CountFollows(b[..n], c[..n]);
      if i :| 0 <= i < n && Usable(b[i].qty) && !Usable(c[i].qty) {
        assert Usable(b[..n][i].qty) && !Usable(c[..n][i].qty);
      }
    }
  }

  lemma {:induction false} ListedAt(b: Book, x: int) returns (i: nat)
    requires Lists(b, x)
    ensures i < |b| && b[i].strike == x
  {
    i :| 0 <= i < |b| && b[i].strike == x;
  }

  /** Each pick uses up a strike. */
  lemma TakeUsesUpStrike(b: Book, p: Pick)
    requires DistinctStrikes(b) && IsCandidate(b, p)
    ensures UsableCount(Take(b, p)) < UsableCount(b)
  {
    hide Take, Qty, UsableCount;
    var c := Take(b, p);
    TakeMoves(b, p);
    TakeShrinks(b, p);
    CandidateIsListed(b, p);
    forall i | 0 <= i < |b|
      ensures b[i].qty == Qty(b, b[i].strike) && c[i].qty == Qty(c, b[i].strike)
    {
      QtyAt(b, i);
      QtyAt(c, i);
    }
    var x := if !Usable(Qty(c, p.lower)) then p.lower else if !Usable(Qty(c, p.upper)) then p.upper else p.body;
    var i := ListedAt(b, x);
    assert Usable(b[i].qty) && !Usable(c[i].qty);
    CountFollows(b, c);
  }

  lemma {:induction false} CountWithout(b: Book, i: nat)
    requires i < |b| && Usable(b[i].qty)
    ensures UsableCount(b) == UsableCount(b[i := b[i].(qty := 0)]) + 1
  {
    var n := |b| - 1;
    var c := b[i := b[i].(qty := 0)];
    if i < n {
      assert c[..n] == b[..n][i := b[i].(qty := 0)];
      CountWithout(b[..n], i);
    } else {
      assert c[..n] == b[..n];
    }
  }

  lemma CandidateNeedsThreeStrikes(b: Book, p: Pick)
    requires DistinctStrikes(b) && IsCandidate(b, p)
    ensures UsableCount(b) >= 3
  {
    hide Qty, UsableCount;
    CandidateIsListed(b, p);
    var i := ListedAt(b, p.lower);
    var j := ListedAt(b, p.body);
    var k := ListedAt(b, p.upper);
    QtyAt(b, i);
    QtyAt(b, j);
    QtyAt(b, k);
    CountWithout(b, i);
    var b1 := b[i := b[i].(qty := 0)];
    CountWithout(b1, j);
    CountWithout(b1[j := b1[j].(qty := 0)], k);
  }

  /** A book with n usable strikes yields at most n - 2 structures, if it yields any. */
  lemma {:induction false} StructuresAreBounded(b: Book, picks: seq<Pick>)
    requires DistinctStrikes(b) && GreedySteps(b, picks)
    ensures |picks| + UsableCount(After(b, picks)) <= UsableCount(b)
    ensures picks != [] ==> |picks| + 2 <= UsableCount(b)
  {
    hide Take, UsableCount;
    if picks != [] {
      var n := |picks| - 1;
      var mid := After(b, picks[..n]);
      GreedyPrefix(b, picks);
      StepsKeepBook(b, picks[..n]);
      StructuresAreBounded(b, picks[..n]);
      TakeUsesUpStrike(mid, picks[n]);
      CandidateNeedsThreeStrikes(mid, picks[n]);
    }
  }

  // ---------- Independence of the order of entries ----------

  ghost predicate SameQuantities(b: Book, c: Book) {
    forall x :: Qty(b, x) == Qty(c, x)
  }

  lemma SameCandidates(b: Book, c: Book, p: Pick)
    requires SameQuantities(b, c)
    ensures IsCandidate(b, p) <==> IsCandidate(c, p)
  {
    hide Qty;
  }

  lemma SameBest(b: Book, c: Book, p: Pick, q: Pick)
    requires SameQuantities(b, c) && IsBest(b, p) && IsBest(c, q)
    ensures p == q
  {
    hide Qty;
    SameCandidates(b, c, p);
    SameCandidates(b, c, q);
  }

  lemma SameAfterTake(b: Book, c: Book, p: Pick)
    requires DistinctStrikes(b) && DistinctStrikes(c) && SameQuantities(b, c) && IsCandidate(b, p)
    ensures SameQuantities(Take(b, p), Take(c, p))
  {
    hide Qty, Take;
    SameCandidates(b, c, p);
    TakeMoves(b, p);
    TakeMoves(c, p);
  }

  lemma SameStep(b: Book, c: Book, p: Pick, q: Pick)
    requires DistinctStrikes(b) && DistinctStrikes(c) && SameQuantities(b, c) && IsBest(b, p) && IsBest(c, q)
    ensures p == q && SameQuantities(Take(b, p), Take(c, q))
  {
    SameBest(b, c, p, q);
    SameAfterTake(b, c, p);
  }

  lemma {:induction false} SamePrefix(b: Book, c: Book, picks: seq<Pick>, others: seq<Pick>, n: nat)
    requires DistinctStrikes(b) && DistinctStrikes(c) && SameQuantities(b, c)
    requires GreedySteps(b, picks) && GreedySteps(c, others) && n <= |picks| && n <= |others|
    ensures picks[..n] == others[..n]
    ensures SameQuantities(After(b, picks[..n]), After(c, others[..n]))
  {
    hide Take, Qty, IsBest, IsCandidate;
    if n > 0 {
      var m := n - 1;
      SamePrefix(b, c, picks, others, m);
      GreedyUpTo(b, picks, m);
      GreedyUpTo(c, others, m);
      StepsKeepBook(b, picks[..m]);
      StepsKeepBook(c, others[..m]);
      SameStep(After(b, picks[..m]), After(c, others[..m]), picks[m], others[m]);
      assert picks[..n] == picks[..m] + [picks[m]] && others[..n] == others[..m] + [others[m]];
      assert picks[..n][..m] == picks[..m] && others[..n][..m] == others[..m];
    }
  }

  lemma GreedyUpTo(b: Book, picks: seq<Pick>, n: nat)
    requires GreedySteps(b, picks) && n <= |picks|
    ensures GreedySteps(b, picks[..n])
  {
    forall k | 0 <= k < n
      ensures IsBest(After(b, picks[..n][..k]), picks[..n][k])
    {
      assert picks[..n][..k] == picks[..k];
    }
  }

  /** Two books with the same quantities have one and the same greedy decomposition. */
  lemma DecompositionIsDetermined(b: Book, c: Book, picks: seq<Pick>, others: seq<Pick>)
    requires DistinctStrikes(b) && DistinctStrikes(c) && SameQuantities(b, c)
    requires Greedy(b, picks) && Greedy(c, others)
    ensures picks == others && SameQuantities(After(b, picks), After(c, others))
  {
    hide Take, Qty;
    var n := Min(|picks|, |others|);
    SamePrefix(b, c, picks, others, n);
    if n < |others| {
      assert picks[..n] == picks;
      SameCandidates(After(b, picks), After(c, others[..n]), others[n]);
      assert false;
    } else if n < |picks| {
      assert others[..n] == others;
      SameCandidates(After(b, picks[..n]), After(c, others), picks[n]);
      assert false;
    }
    assert picks[..n] == picks && others[..n] == others;
  }

  // ---------- Value and payoff ----------

  /** What one lot of the structure is worth under weights on the strikes. */
  function PerLot(p: Pick, f: int -> real): real {
    f(p.lower) - 2.0 * f(p.body) + f(p.upper)
  }

  function Worth(f: int -> real): Pick -> real {
    (p: Pick) => p.lots as real * PerLot(p, f)
  }

  lemma TakeMovesValue(b: Book, p: Pick, f: int -> real)
    ensures Value(b, f) == Value(Take(b, p), f) + Worth(f)(p)
  {
    hide Value, Add;
    var b1 := Add(b, p.lower, -p.lots);
    var b2 := Add(b1, p.body, 2 * p.lots);
    AddMovesValue(b, p.lower, -p.lots, f);
    AddMovesValue(b1, p.body, 2 * p.lots, f);
    AddMovesValue(b2, p.upper, -p.lots, f);
    LotsDistribute(p.lots, f(p.lower), f(p.body), f(p.upper));
  }

  lemma LotsDistribute(n: int, x: real, y: real, z: real)
    ensures (-n) as real * x + (2 * n) as real * y + (-n) as real * z == -(n as real * (x - 2.0 * y + z))
  {
  }

  /** Under any weights on the strikes, the book is worth the structures plus what is left. */
  lemma {:induction false} ValueIsConserved(b: Book, picks: seq<Pick>, f: int -> real)
    ensures Value(b, f) == Sum(Worth(f), picks) + Value(After(b, picks), f)
  {
    hide Take, Value, Worth;
    if picks != [] {
      var n := |picks| - 1;
      ValueIsConserved(b, picks[..n], f);
      TakeMovesValue(After(b, picks[..n]), picks[n], f);
    } else {
      SumOfNothing(Worth(f));
    }
  }

  /** Payoff at expiry of one call, or put, by strike. */
  function Call(spot: real): int -> real {
    (k: int) => MaxR(0.0, spot - k as real)
  }

  function Put(spot: real): int -> real {
    (k: int) => MaxR(0.0, k as real - spot)
  }

  function One(): int -> real {
    (k: int) => 1.0
  }

  function Strike(): int -> real {
    (k: int) => k as real
  }

  function Tent(p: Pick, spot: real): real {
    MaxR(0.0, (p.body - p.lower) as real - Abs(spot - p.body as real))
  }

  /** A butterfly of calls and one of puts both pay the tent over the body, and cost no net quantity. */
  lemma ButterflyPaysTent(p: Pick, spot: real)
    requires p.lower < p.body && p.upper == 2 * p.body - p.lower
    ensures PerLot(p, Call(spot)) == Tent(p, spot) == PerLot(p, Put(spot))
    ensures PerLot(p, One()) == 0.0 && PerLot(p, Strike()) == 0.0
  {
  }

  function TentWorth(spot: real): Pick -> real {
    (p: Pick) => p.lots as real * Tent(p, spot)
  }

  function MaxWorth(): Pick -> real {
    (p: Pick) => p.lots as real * (p.body - p.lower) as real
  }

  function NoWorth(): Pick -> real {
    (p: Pick) => 0.0
  }

  lemma PickIsSymmetric(b: Book, picks: seq<Pick>, i: nat)
    requires GreedySteps(b, picks) && i < |picks|
    ensures picks[i].lower < picks[i].body && picks[i].upper == 2 * picks[i].body - picks[i].lower && picks[i].lots >= 1
  {
    assert IsBest(After(b, picks[..i]), picks[i]);
    hide Qty, After;
    HalfOf(AbsI(Qty(After(b, picks[..i]), picks[i].body)));
  }

  /** The book pays, at every spot, the tents of its structures plus the payoff of what is left: for a group of
      calls and for a group of puts. */
  lemma PayoffIsTentsAndLeftovers(b: Book, picks: seq<Pick>, spot: real)
    requires GreedySteps(b, picks)
    ensures Value(b, Call(spot)) == Sum(TentWorth(spot), picks) + Value(After(b, picks), Call(spot))
    ensures Value(b, Put(spot)) == Sum(TentWorth(spot), picks) + Value(After(b, picks), Put(spot))
    ensures 0.0 <= Sum(TentWorth(spot), picks) <= Sum(MaxWorth(), picks)
  {
    hide Value, After, Call, Put, Worth, TentWorth, MaxWorth, Sum, GreedySteps;
    ValueIsConserved(b, picks, Call(spot));
    ValueIsConserved(b, picks, Put(spot));
    forall i | 0 <= i < |picks|
      ensures Worth(Call(spot))(picks[i]) == TentWorth(spot)(picks[i])
      ensures Worth(Put(spot))(picks[i]) == TentWorth(spot)(picks[i])
      ensures NoWorth()(picks[i]) <= TentWorth(spot)(picks[i]) <= MaxWorth()(picks[i])
    {
      PickIsSymmetric(b, picks, i);
      PickPays(picks[i], spot);
    }
    SumsAgree(Worth(Call(spot)), TentWorth(spot), picks);
    SumsAgree(Worth(Put(spot)), TentWorth(spot), picks);
    SumIsMonotone(NoWorth(), TentWorth(spot), picks);
    SumIsMonotone(TentWorth(spot), MaxWorth(), picks);
    SumOfConstant(NoWorth(), 0.0, picks);
  }

  lemma PickPays(p: Pick, spot: real)
    requires p.lower < p.body && p.upper == 2 * p.body - p.lower && p.lots >= 1
    ensures Worth(Call(spot))(p) == TentWorth(spot)(p) == Worth(Put(spot))(p)
    ensures 0.0 <= TentWorth(spot)(p) <= MaxWorth()(p)
    ensures Worth(One())(p) == 0.0 && Worth(Strike())(p) == 0.0
  {
    hide PerLot, Tent;
    ButterflyPaysTent(p, spot);
    TentIsBounded(p, spot);
  }

  lemma TentIsBounded(p: Pick, spot: real)
    requires p.lower < p.body && p.lots >= 1
    ensures 0.0 <= p.lots as real * Tent(p, spot) <= p.lots as real * (p.body - p.lower) as real
  {
    Scale(Tent(p, spot), (p.body - p.lower) as real, p.lots as real);
  }

  ghost predicate NothingLeft(b: Book) {
    forall i :: 0 <= i < |b| ==> b[i].qty == 0
  }

  /** A book that is adopted without leftovers never pays less than zero or more than the widths of its
      structures, and has no net quantity and no net strike-weighted quantity. */
  lemma AdoptedBookIsBracketed(b: Book, picks: seq<Pick>, spot: real)
    requires GreedySteps(b, picks) && NothingLeft(After(b, picks))
    ensures 0.0 <= Value(b, Call(spot)) == Value(b, Put(spot)) <= Sum(MaxWorth(), picks)
    ensures Value(b, One()) == 0.0 && Value(b, Strike()) == 0.0
  {
    hide After, Call, Put, One, Strike, Worth, Value, Sum, GreedySteps;
    PayoffIsTentsAndLeftovers(b, picks, spot);
    EmptyBookIsWorthless(After(b, picks), Call(spot));
    EmptyBookIsWorthless(After(b, picks), Put(spot));
    EmptyBookIsWorthless(After(b, picks), One());
    EmptyBookIsWorthless(After(b, picks), Strike());
    ValueIsConserved(b, picks, One());
    ValueIsConserved(b, picks, Strike());
    forall i | 0 <= i < |picks|
      ensures Worth(One())(picks[i]) == 0.0 && Worth(Strike())(picks[i]) == 0.0
    {
      PickIsSymmetric(b, picks, i);
      PickPays(picks[i], spot);
    }
    SumOfConstant(Worth(One()), 0.0, picks);
    SumOfConstant(Worth(Strike()), 0.0, picks);
  }

  // ---------- Greedy is not complete ----------

  /** A strike in dollars. */
  function At(dollars: int): int {
    1000000 * dollars
  }

  /** The legs of three butterflies: 400/430/460, 425/450/475 and 435/470/505. */
  function Sample(): Book {
    [Entry(At(400), 1), Entry(At(425), 1), Entry(At(430), -2), Entry(At(435), 1), Entry(At(450), -2)]
    + [Entry(At(460), 1), Entry(At(470), -2), Entry(At(475), 1), Entry(At(505), 1)]
  }

  const THREE_BUTTERFLIES := [
    Pick(At(400), At(430), At(460), 1), Pick(At(425), At(450), At(475), 1), Pick(At(435), At(470), At(505), 1)]

  lemma QtySnoc(b: Book, e: Entry, x: int)
    ensures Qty(b + [e], x) == if e.strike == x then e.qty else Qty(b, x)
  {
    assert (b + [e])[..|b|] == b;
  }

  lemma SampleIsDistinct()
    ensures DistinctStrikes(Sample())
  {
  }

  lemma SampleQty(x: int)
    ensures DistinctStrikes(Sample())
    ensures Qty(Sample(), x) ==
            if x == At(430) || x == At(450) || x == At(470) then -2
            else if x == At(400) || x == At(425) || x == At(435) || x == At(460) || x == At(475) || x == At(505) then 1
            else 0
  {
    SampleIsDistinct();
    assert Qty([], x) == 0;
    hide Qty, DistinctStrikes;
    var b1 := [Entry(At(400), 1)];
    var b2 := b1 + [Entry(At(425), 1)];
    var b3 := b2 + [Entry(At(430), -2)];
    var b4 := b3 + [Entry(At(435), 1)];
    var b5 := b4 + [Entry(At(450), -2)];
    var b6 := b5 + [Entry(At(460), 1)];
    var b7 := b6 + [Entry(At(470), -2)];
    var b8 := b7 + [Entry(At(475), 1)];
    QtySnoc([], Entry(At(400), 1), x);
    assert [] + [Entry(At(400), 1)] == b1;
    QtySnoc(b1, Entry(At(425), 1), x);
    QtySnoc(b2, Entry(At(430), -2), x);
    QtySnoc(b3, Entry(At(435), 1), x);
    QtySnoc(b4, Entry(At(450), -2), x);
    QtySnoc(b5, Entry(At(460), 1), x);
    QtySnoc(b6, Entry(At(470), -2), x);
    QtySnoc(b7, Entry(At(475), 1), x);
    QtySnoc(b8, Entry(At(505), 1), x);
    assert Sample() == b8 + [Entry(At(505), 1)];
  }

  lemma SampleTaken(x: int)
    ensures Taken(THREE_BUTTERFLIES, x) == Qty(Sample(), x)
  {
    SampleQty(x);
    hide Qty;
    var p, q := Pick(At(400), At(430), At(460), 1), Pick(At(425), At(450), At(475), 1);
    var r := Pick(At(435), At(470), At(505), 1);
    assert THREE_BUTTERFLIES[..2] == [p, q] && [p, q][..1] == [p] && [p][..0] == [];
    assert Taken([p], x) == -Moved(p, x);
    assert Taken([p, q], x) == -Moved(p, x) - Moved(q, x);
    assert Taken(THREE_BUTTERFLIES, x) == -Moved(p, x) - Moved(q, x) - Moved(r, x);
  }

  lemma FirstPickOfSample(p: Pick)
    requires IsBest(Sample(), p)
    ensures p == Pick(At(425), At(430), At(435), 1) && Exhausted(Take(Sample(), p))
    ensures Qty(Take(Sample(), p), At(400)) == 1
  {
    var b, narrow := Sample(), Pick(At(425), At(430), At(435), 1);
    forall x {
      SampleQty(x);
    }
    hide Qty, Take, Sample;
    SampleQty(At(400));
    assert IsCandidate(b, narrow);
    assert p == narrow;
    TakeMoves(b, p);
    forall q
      ensures !IsCandidate(Take(b, p), q)
    {
      assert Qty(Take(b, p), q.body) == Qty(b, q.body) + Moved(p, q.body);
      assert Qty(Take(b, p), q.lower) == Qty(b, q.lower) + Moved(p, q.lower);
      assert Qty(Take(b, p), q.upper) == Qty(b, q.upper) + Moved(p, q.upper);
    }
  }

  /** A book that is nothing but three butterflies, and that greedy selection does not explain: it first takes
      the narrow 425/430/435, whose wings belong to two others, and then finds nothing more. */
  lemma GreedyCanStrandButterflies(picks: seq<Pick>)
    requires Greedy(Sample(), picks)
    ensures forall x :: Qty(Sample(), x) == Taken(THREE_BUTTERFLIES, x)
    ensures !NothingLeft(After(Sample(), picks))
  {
    var b := Sample();
    forall x
      ensures Qty(b, x) == Taken(THREE_BUTTERFLIES, x)
    {
      SampleTaken(x);
    }
    hide Qty, Take, Sample, IsCandidate, IsBest, Greedy, Taken, NothingLeft, After;
    SampleIsCandidate();
    forall p | IsBest(b, p)
      ensures Exhausted(Take(b, p))
    {
      FirstPickOfSample(p);
    }
    OnlyOneStep(b, picks);
    FirstPickOfSample(picks[0]);
    SampleIsLeft(b, picks);
  }

  lemma OnlyOneStep(b: Book, picks: seq<Pick>)
    requires Greedy(b, picks) && !Exhausted(b)
    requires forall p :: IsBest(b, p) ==> Exhausted(Take(b, p))
    ensures |picks| == 1 && IsBest(b, picks[0]) && After(b, picks) == Take(b, picks[0])
  {
    hide Take, IsCandidate;
    assert After(b, picks[..0]) == b;
    assert picks != [];
    StepAt(b, picks, 0);
    assert picks[..1][..0] == picks[..0];
    assert After(b, picks[..1]) == Take(b, picks[0]);
    assert |picks| <= 1;
    assert picks[..1] == picks;
  }

  lemma StepAt(b: Book, picks: seq<Pick>, i: nat)
    requires GreedySteps(b, picks) && i < |picks|
    ensures IsBest(After(b, picks[..i]), picks[i])
  {
  }

  lemma SampleIsCandidate()
    ensures IsCandidate(Sample(), Pick(At(425), At(430), At(435), 1))
  {
    SampleQty(At(425));
    SampleQty(At(430));
    SampleQty(At(435));
  }

  lemma SampleIsLeft(b: Book, picks: seq<Pick>)
    requires Qty(After(b, picks), At(400)) == 1
    ensures !NothingLeft(After(b, picks))
  {
    if NothingLeft(After(b, picks)) {
      AllZero(After(b, picks), At(400));
    }
  }

  lemma {:induction false} AllZero(b: Book, x: int)
    requires NothingLeft(b)
    ensures Qty(b, x) == 0
  {
    if b != [] {
      AllZero(b[..|b| - 1], x);
    }
  }
}
