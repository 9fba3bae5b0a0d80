/** What adoption takes, and in which order, in terms of the strikes of the account only. */
module AdoptionOrder {
  import opened AdoptionLimits
  import opened ButterflyAdoption
  import opened FittingButterflies
  import opened GreedyButterflies
  import opened SeparateButterflies
  import opened StrikeBook

  /** What one structure holds of a strike. */
  function Holds(p: Pick, x: int): int {
    (if x == p.lower then p.lots else 0) + (if x == p.upper then p.lots else 0)
    - (if x == p.body then 2 * p.lots else 0)
  }

  /** What the account has left of a strike after some structures. */
  function Left(legs: seq<Leg>, g: Group, picks: seq<Pick>, x: int): int {
    if picks == [] then LegQty(legs, g, x)
    else Left(legs, g, picks[..|picks| - 1], x) - Holds(picks[|picks| - 1], x)
  }

  /** Long wings at equal distance from a body that is short by two at least. */
  ghost predicate IsLeft(legs: seq<Leg>, g: Group, picks: seq<Pick>, lower: int, body: int, upper: int) {
    && lower < body && body - lower == upper - body
    && Left(legs, g, picks, lower) > 0
    && Left(legs, g, picks, upper) > 0
    && Left(legs, g, picks, body) <= -2
  }

  lemma {:induction false} LeftIsQty(legs: seq<Leg>, g: Group, picks: seq<Pick>)
    requires GreedySteps(BookOf(legs, g), picks)
    ensures forall x :: Left(legs, g, picks, x) == Qty(After(BookOf(legs, g), picks), x)
  {
    hide Qty, Take, BookOf, LegQty, IsBest;
    var b := BookOf(legs, g);
    BookHoldsLegs(legs, g);
    if picks != [] {
      var n := |picks| - 1;
      GreedyPrefix(b, picks);
      LeftIsQty(legs, g, picks[..n]);
      StepsKeepBook(b, picks[..n]);
      StepMoves(b, picks);
    }
  }

  lemma StepMoves(b: Book, picks: seq<Pick>)
    requires picks != [] && GreedySteps(b, picks) && DistinctStrikes(After(b, picks[..|picks| - 1]))
    ensures var n := |picks| - 1;
            forall x :: Qty(After(b, picks), x) == Qty(After(b, picks[..n]), x) - Holds(picks[n], x)
  {
    hide Qty, Take;
    var n := |picks| - 1;
    GreedyPrefix(b, picks);
    TakeMoves(After(b, picks[..n]), picks[n]);
  }

  /** Every structure of a group is a triple of strikes that the account has left at its time, with as many lots as it
      allows; and no triple that is left is narrower, or as wide with a body nearer to zero. */
  lemma StructuresAreNarrowestFirst(legs: seq<Leg>, structures: seq<Structure>, leftovers: seq<Leg>, g: Group, i: nat)
    requires Adopts(legs, structures, leftovers) && i < |PicksOf(structures, g)|
    ensures var p, before := PicksOf(structures, g)[i], PicksOf(structures, g)[..i];
            var low, high, short := Left(legs, g, before, p.lower), Left(legs, g, before, p.upper),
                                    -Left(legs, g, before, p.body);
            && IsLeft(legs, g, before, p.lower, p.body, p.upper)
            && 1 <= p.lots <= low && p.lots <= high && 2 * p.lots <= short
            && (p.lots == low || p.lots == high || short < 2 * p.lots + 2)
    ensures var p, before := PicksOf(structures, g)[i], PicksOf(structures, g)[..i];
            forall lower, body, upper :: IsLeft(legs, g, before, lower, body, upper) ==>
              || p.body - p.lower < body - lower
              || (p.body - p.lower == body - lower && Distance(p.body) < Distance(body))
              || (p.body - p.lower == body - lower && Distance(p.body) == Distance(body) && p.lower <= lower)
  {
    hide Qty, BookOf, PicksOf, LegQty, Left, After;
    assert Settled(legs, structures, leftovers, g);
    var picks := PicksOf(structures, g);
    var b, p, before := BookOf(legs, g), picks[i], picks[..i];
    StepsOfPrefix(b, picks, i);
    LeftIsQty(legs, g, before);
    StepAt(b, picks, i);
    forall lower, body, upper | IsLeft(legs, g, before, lower, body, upper)
      ensures || p.body - p.lower < body - lower
              || (p.body - p.lower == body - lower && Distance(p.body) < Distance(body))
              || (p.body - p.lower == body - lower && Distance(p.body) == Distance(body) && p.lower <= lower)
    {
      TripleIsCandidate(After(b, before), lower, body, upper);
    }
  }

  /** How far a strike is from zero. */
  function Distance(x: int): int {
    if x >= 0 then x else -x
  }

  lemma StepsOfPrefix(b: Book, picks: seq<Pick>, i: nat)
    requires GreedySteps(b, picks) && i <= |picks|
    ensures GreedySteps(b, picks[..i])
  {
    forall k | 0 <= k < i
      ensures IsBest(After(b, picks[..i][..k]), picks[..i][k])
    {
      assert picks[..i][..k] == picks[..k];
    }
  }

  lemma TripleIsCandidate(b: Book, lower: int, body: int, upper: int)
    requires lower < body && body - lower == upper - body
    requires Qty(b, lower) > 0 && Qty(b, upper) > 0 && Qty(b, body) <= -2
    ensures IsCandidate(b, Refit(b, Pick(lower, body, upper, 1)))
  {
  }

  /** After all structures of a group no triple of strikes is left, and the leftovers are what is left of each strike.
      */
  lemma NoTripleIsLeft(legs: seq<Leg>, structures: seq<Structure>, leftovers: seq<Leg>, g: Group)
    requires Adopts(legs, structures, leftovers)
    ensures forall lower, body, upper :: !IsLeft(legs, g, PicksOf(structures, g), lower, body, upper)
    ensures forall x :: LegQty(leftovers, g, x) == Left(legs, g, PicksOf(structures, g), x)
  {
    hide Qty, BookOf, PicksOf, LegQty, Left, After;
    assert Settled(legs, structures, leftovers, g);
    var b, picks := BookOf(legs, g), PicksOf(structures, g);
    LeftIsQty(legs, g, picks);
    forall lower, body, upper | IsLeft(legs, g, picks, lower, body, upper)
      ensures false
    {
      TripleIsCandidate(After(b, picks), lower, body, upper);
    }
    forall x
      ensures LegQty(leftovers, g, x) == Left(legs, g, picks, x)
    {
      BookHoldsLegs(legs, g);
      StepsKeepBook(b, picks);
      LegsOfQty(leftovers, g, x);
      LegsOfAreInGroup(leftovers, g);
      ListedQty(LegsOf(leftovers, g), After(b, picks), g, x);
    }
  }

  lemma ListedQty(rest: seq<Leg>, b: Book, g: Group, x: int)
    requires ListsLeftovers(rest, b) && forall i :: 0 <= i < |rest| ==> rest[i].group == g
    ensures LegQty(rest, g, x) == Qty(b, x)
  {
    RisingLegQty(rest, g, x);
  }

  // ---------- An account in which widths tie ----------

  /** The legs of three butterflies: 100/105/110, 107/115/123 and 120/130/140. */
  function Tied(): Book {
    [Entry(At(100), 1), Entry(At(105), -2), Entry(At(107), 1), Entry(At(110), 1), Entry(At(115), -2)]
    + [Entry(At(120), 1), Entry(At(123), 1), Entry(At(130), -2), Entry(At(140), 1)]
  }

  const TIED_BUTTERFLIES := [
    Pick(At(100), At(105), At(110), 1), Pick(At(107), At(115), At(123), 1), Pick(At(120), At(130), At(140), 1)]

  lemma TiedIsDistinct()
    ensures DistinctStrikes(Tied())
  {
  }

  function TiedQty(x: int): int {
    if x == At(105) || x == At(115) || x == At(130) then -2
    else if x == At(100) || x == At(107) || x == At(110) || x == At(120) || x == At(123) || x == At(140) then 1
    else 0
  }

  lemma QtyOfTied(x: int)
    ensures Qty(Tied(), x) == TiedQty(x)
  {
    hide Qty;
    TiedIsDistinct();
    if Lists(Tied(), x) {
      var i :| 0 <= i < 9 && Tied()[i].strike == x;
      QtyAt(Tied(), i);
    } else {
      UnlistedIsZero(Tied(), x);
      assert Tied()[0].strike == At(100) && Tied()[1].strike == At(105) && Tied()[2].strike == At(107);
      assert Tied()[3].strike == At(110) && Tied()[4].strike == At(115) && Tied()[5].strike == At(120);
      assert Tied()[6].strike == At(123) && Tied()[7].strike == At(130) && Tied()[8].strike == At(140);
    }
  }

  lemma TiedTaken(x: int)
    ensures Taken(TIED_BUTTERFLIES, x) == TiedQty(x)
  {
    var p, q, r := TIED_BUTTERFLIES[0], TIED_BUTTERFLIES[1], TIED_BUTTERFLIES[2];
    assert TIED_BUTTERFLIES[..2] == [p, q] && [p, q][..1] == [p] && [p][..0] == [];
    assert Taken([p], x) == -Moved(p, x);
    assert Taken([p, q], x) == -Moved(p, x) - Moved(q, x);
  }

  lemma TiedIsMade()
    ensures Makes(Tied(), TIED_BUTTERFLIES) && Separate(TIED_BUTTERFLIES)
  {
    TiedIsDistinct();
    ThreeAreSeparate(TIED_BUTTERFLIES[0], TIED_BUTTERFLIES[1], TIED_BUTTERFLIES[2]);
    hide Qty, Tied, Taken, Separate;
    forall x
      ensures Qty(Tied(), x) == Taken(TIED_BUTTERFLIES, x)
    {
      QtyOfTied(x);
      TiedTaken(x);
    }
  }

  /** Of the two butterflies of width 5 that the legs allow, the one with the nearer body uses up the strike 110. */
  lemma TiedIsClear()
    ensures Clear(Tied(), TIED_BUTTERFLIES)
  {
    hide Qty, Tied, StillThere;
    forall f | IsCandidate(Tied(), f) && f !in TIED_BUTTERFLIES
      ensures !StillThere(TIED_BUTTERFLIES, f)
    {
      QtyOfTied(f.lower);
      QtyOfTied(f.body);
      QtyOfTied(f.upper);
      assert f == Pick(At(110), At(115), At(120), 1);
      FartherIsGone();
    }
  }

  lemma FartherIsGone()
    ensures !StillThere(TIED_BUTTERFLIES, Pick(At(110), At(115), At(120), 1))
  {
    var f := Pick(At(110), At(115), At(120), 1);
    var rest := NotBefore(TIED_BUTTERFLIES, f);
    NotBeforeHolds(TIED_BUTTERFLIES, f);
    assert KeyLess(TIED_BUTTERFLIES[0], f);
    hide NotBefore, KeyLess;
    forall i | 0 <= i < |rest|
      ensures rest[i] == TIED_BUTTERFLIES[1] || rest[i] == TIED_BUTTERFLIES[2]
    {
      assert rest[i] in rest;
    }
    NothingAt(rest, At(110));
  }

  /** An account of these legs is adopted as the three butterflies, without leftovers. */
  lemma TiedAccountIsAdopted(g: Group, structures: seq<Structure>, leftovers: seq<Leg>)
    requires Adopts(ToLegs(Tied(), g), structures, leftovers)
    ensures PicksOf(structures, g) == TIED_BUTTERFLIES && leftovers == []
  {
    hide PicksOf, Tied, Greedy, After, NothingLeft, Taken, LegQty, ToLegs, Qty, BookOf, Clear, Fits, Makes, Separate;
    var legs, b := ToLegs(Tied(), g), Tied();
    TiedIsDistinct();
    BookOfLegs(b, g);
    assert Settled(legs, structures, leftovers, g);
    var picks := PicksOf(structures, g);
    TiedIsMade();
    TiedIsClear();
    FitsIffClear(b, TIED_BUTTERFLIES);
    RecoveredIffFits(b, TIED_BUTTERFLIES, picks);
    NothingRemains(b, TIED_BUTTERFLIES, picks);
    NothingIsListed(LegsOf(leftovers, g), After(b, picks));
    ToLegsAt(b, g);
    forall h: Group
      ensures LegsOf(leftovers, h) == []
    {
      if h != g {
        OtherGroupsAreEmpty(legs, structures, leftovers, g, h);
      }
    }
    NoGroupNoLeg(leftovers);
    TiedInOrder(picks);
  }

  lemma TiedInOrder(picks: seq<Pick>)
    requires Greedy(Tied(), picks) && multiset(picks) == multiset(TIED_BUTTERFLIES)
    ensures picks == TIED_BUTTERFLIES
  {
    hide After, Qty, Take, GreedySteps, Exhausted, Tied;
    TiedIsDistinct();
    SelectionOrderIncreases(Tied(), picks);
    assert |picks| == |multiset(picks)| == 3;
    forall i | 0 <= i < 3
      ensures picks[i] in TIED_BUTTERFLIES
    {
      assert picks[i] in multiset(picks);
    }
    assert picks == [picks[0], picks[1], picks[2]];
  }
}
