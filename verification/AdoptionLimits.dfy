/** Which accounts of long butterflies are adopted, and which are not. */
module AdoptionLimits {
  import opened ButterflyAdoption
  import opened FittingButterflies
  import opened GreedyButterflies
  import opened SeparateButterflies
  import opened StackedButterflies
  import opened StrikeBook

  // ---------- Accounts that are adopted ----------

  /** In each group the account consists of these butterflies. */
  ghost predicate Consists(legs: seq<Leg>, own: Group -> seq<Pick>) {
    forall g: Group, x :: LegQty(legs, g, x) == Taken(own(g), x)
  }

  lemma BookIsMade(legs: seq<Leg>, own: Group -> seq<Pick>, g: Group)
    requires Consists(legs, own)
    ensures Makes(BookOf(legs, g), own(g))
  {
    hide BookOf, Qty, Taken, LegQty;
    BookHoldsLegs(legs, g);
  }

  /** Adoption gives an account of butterflies back as it is if and only if the butterflies of each group fit; and then
      it leaves no leg over. */
  lemma ButterflyAccountsAreAdopted(
      legs: seq<Leg>, structures: seq<Structure>, leftovers: seq<Leg>, own: Group -> seq<Pick>)
    requires Adopts(legs, structures, leftovers) && Consists(legs, own)
    ensures (forall g: Group :: Fits(own(g)))
       <==> forall g: Group :: multiset(PicksOf(structures, g)) == multiset(own(g))
    ensures (forall g: Group :: Fits(own(g))) ==> leftovers == []
  {
    hide BookOf, PicksOf, LegsOf, Fits, Makes, Greedy, NothingLeft, After, Consists;
    forall g: Group
      ensures Fits(own(g)) <==> multiset(PicksOf(structures, g)) == multiset(own(g))
      ensures Fits(own(g)) ==> LegsOf(leftovers, g) == []
    {
      var b, picks := BookOf(legs, g), PicksOf(structures, g);
      assert Settled(legs, structures, leftovers, g);
      BookIsMade(legs, own, g);
      RecoveredIffFits(b, own(g), picks);
      if Fits(own(g)) {
        NothingRemains(b, own(g), picks);
        NothingIsListed(LegsOf(leftovers, g), After(b, picks));
      }
    }
    if forall g: Group :: Fits(own(g)) {
      NoGroupNoLeg(leftovers);
    }
  }

  /** An account with one body in each group, under butterflies of different widths and any lots, is given back as it
      is. */
  lemma StackedAccountsAreAdopted(
      legs: seq<Leg>, structures: seq<Structure>, leftovers: seq<Leg>, own: Group -> seq<Pick>, body: Group -> int)
    requires Adopts(legs, structures, leftovers) && Consists(legs, own)
    requires forall g: Group :: Stacked(own(g), body(g))
    ensures leftovers == [] && forall g: Group :: multiset(PicksOf(structures, g)) == multiset(own(g))
  {
    hide Adopts, Consists, Fits, Stacked, PicksOf;
    forall g: Group
      ensures Fits(own(g))
    {
      StackedButterfliesFit(own(g), body(g));
    }
    ButterflyAccountsAreAdopted(legs, structures, leftovers, own);
  }

  /** The legs of the group are some fitting butterflies. */
  ghost predicate IsExplained(legs: seq<Leg>, g: Group) {
    IsFit(BookOf(legs, g))
  }

  /** An account is accepted, without leftovers, if and only if each group consists of some fitting butterflies; they
      need not be the ones the account was made of. */
  lemma AcceptedIffExplained(legs: seq<Leg>, structures: seq<Structure>, leftovers: seq<Leg>)
    requires Adopts(legs, structures, leftovers)
    ensures leftovers == [] <==> forall g: Group :: IsExplained(legs, g)
  {
    hide PicksOf, LegsOf, IsExplained, Adopts;
    if leftovers == [] {
      forall g: Group
        ensures IsExplained(legs, g)
      {
        GroupIsAccepted(legs, structures, leftovers, g);
        NoLegInGroup(g);
      }
    }
    if forall g: Group :: IsExplained(legs, g) {
      forall g: Group
        ensures LegsOf(leftovers, g) == []
      {
        GroupIsAccepted(legs, structures, leftovers, g);
      }
      NoGroupNoLeg(leftovers);
    }
  }

  lemma GroupIsAccepted(legs: seq<Leg>, structures: seq<Structure>, leftovers: seq<Leg>, g: Group)
    requires Adopts(legs, structures, leftovers)
    ensures LegsOf(leftovers, g) == [] <==> IsExplained(legs, g)
  {
    hide BookOf, PicksOf, LegsOf, IsFit, Greedy, NothingLeft, After, Qty, LegQty, ListsLeftovers;
    var b, picks := BookOf(legs, g), PicksOf(structures, g);
    assert Settled(legs, structures, leftovers, g);
    BookHoldsLegs(legs, g);
    ExplainedIffFit(b, picks);
    StepsKeepBookOf(b, picks);
    if NothingLeft(After(b, picks)) {
      NothingIsListed(LegsOf(leftovers, g), After(b, picks));
    }
    if LegsOf(leftovers, g) == [] {
      NoLeftoversLeaveNothing(After(b, picks));
    }
  }

  lemma NoLegInGroup(g: Group)
    ensures LegsOf([], g) == []
  {
  }

  lemma NothingIsListed(rest: seq<Leg>, b: Book)
    requires ListsLeftovers(rest, b) && NothingLeft(b)
    ensures rest == []
  {
    if rest != [] {
      AllZero(b, rest[0].strike);
      assert false;
    }
  }

  lemma NoGroupNoLeg(legs: seq<Leg>)
    requires forall g: Group :: LegsOf(legs, g) == []
    ensures legs == []
  {
    if legs != [] {
      LastLegIsListed(legs);
      assert false;
    }
  }

  lemma LastLegIsListed(legs: seq<Leg>)
    requires legs != []
    ensures LegsOf(legs, legs[|legs| - 1].group) != []
  {
  }

  // ---------- Accounts that are not adopted ----------

  /** One leg for each strike of a book. */
  function ToLegs(b: Book, g: Group): (legs: seq<Leg>)
    ensures |legs| == |b|
  {
    if b == [] then []
    else ToLegs(b[..|b| - 1], g) + [Leg(g, b[|b| - 1].strike, b[|b| - 1].qty)]
  }

  lemma {:induction false} BookOfLegs(b: Book, g: Group)
    requires DistinctStrikes(b)
    ensures BookOf(ToLegs(b, g), g) == b
  {
    if b != [] {
      var n := |b| - 1;
      BookOfLegs(b[..n], g);
      assert ToLegs(b, g)[..n] == ToLegs(b[..n], g);
      assert !Lists(b[..n], b[n].strike);
      assert b == b[..n] + [b[n]];
    }
  }

  /** An account of the butterflies 400/430/460, 425/450/475 and 435/470/505 is refused: greedy selection starts with
      425/430/435 and then finds nothing. */
  lemma AccountCanBeStranded(g: Group, structures: seq<Structure>, leftovers: seq<Leg>)
    requires Adopts(ToLegs(Sample(), g), structures, leftovers)
    ensures leftovers != []
    ensures forall x :: LegQty(ToLegs(Sample(), g), g, x) == Taken(THREE_BUTTERFLIES, x)
  {
    hide PicksOf, Sample, Greedy, After, NothingLeft, Taken, LegQty, ToLegs, Qty, ListsLeftovers, BookOf;
    var legs, b := ToLegs(Sample(), g), Sample();
    SampleIsDistinct();
    BookOfLegs(b, g);
    BookHoldsLegs(legs, g);
    assert Settled(legs, structures, leftovers, g);
    var picks := PicksOf(structures, g);
    GreedyCanStrandButterflies(picks);
    StepsKeepBookOf(b, picks);
    if leftovers == [] {
      assert LegsOf(leftovers, g) == [];
      NoLeftoversLeaveNothing(After(b, picks));
      assert false;
    }
  }

  lemma ThreeAreSeparate(p: Pick, q: Pick, r: Pick)
    requires IsButterfly(p) && IsButterfly(q) && IsButterfly(r)
    requires p.body != q.body && p.body != r.body && q.body != r.body
    requires forall x :: IsWing(p, x) || IsWing(q, x) || IsWing(r, x) ==> x != p.body && x != q.body && x != r.body
    ensures Separate([p, q, r])
  {
    hide IsButterfly;
    var own := [p, q, r];
    forall j | 0 <= j < 3
      ensures IsButterfly(own[j])
      ensures forall i :: 0 <= i < 3 ==> own[i].body != own[j].lower && own[i].body != own[j].upper
    {
      assert own[j] == p || own[j] == q || own[j] == r;
      assert IsWing(own[j], own[j].lower) && IsWing(own[j], own[j].upper);
    }
  }

  lemma SampleIsMade()
    ensures Makes(Sample(), THREE_BUTTERFLIES) && Separate(THREE_BUTTERFLIES)
  {
    SampleIsDistinct();
    ThreeAreSeparate(THREE_BUTTERFLIES[0], THREE_BUTTERFLIES[1], THREE_BUTTERFLIES[2]);
    hide Qty, Sample, Taken, Separate;
    forall x
      ensures Qty(Sample(), x) == Taken(THREE_BUTTERFLIES, x)
    {
      SampleTaken(x);
    }
  }

  lemma NarrowIsStillThere()
    ensures StillThere(THREE_BUTTERFLIES, Pick(At(425), At(430), At(435), 1))
  {
    SampleTaken(At(425));
    SampleTaken(At(430));
    SampleTaken(At(435));
    SampleQty(At(425));
    SampleQty(At(430));
    SampleQty(At(435));
    hide Qty, Taken, NotBefore;
    NothingBefore(THREE_BUTTERFLIES, Pick(At(425), At(430), At(435), 1));
  }

  /** Its book is not clear: the foreign triple is narrower than all three butterflies. */
  lemma SampleIsNotClear()
    ensures Makes(Sample(), THREE_BUTTERFLIES) && Separate(THREE_BUTTERFLIES)
    ensures !Clear(Sample(), THREE_BUTTERFLIES) && !Fits(THREE_BUTTERFLIES)
  {
    hide Makes, Separate, Fits, IsCandidate, StillThere, Sample;
    SampleIsMade();
    FitsIffClear(Sample(), THREE_BUTTERFLIES);
    SampleIsCandidate();
    NarrowIsStillThere();
    assert Pick(At(425), At(430), At(435), 1) !in THREE_BUTTERFLIES;
  }

  // ---------- An account that is accepted as something else ----------

  /** The legs of three butterflies: 400/415/430, 410/418/426 and 420/428/436. */
  function Mixed(): Book {
    [Entry(At(400), 1), Entry(At(410), 1), Entry(At(415), -2), Entry(At(418), -2), Entry(At(420), 1)]
    + [Entry(At(426), 1), Entry(At(428), -2), Entry(At(430), 1), Entry(At(436), 1)]
  }

  const MIXED_BUTTERFLIES := [
    Pick(At(400), At(415), At(430), 1), Pick(At(410), At(418), At(426), 1), Pick(At(420), At(428), At(436), 1)]

  const FOUND_BUTTERFLIES := [
    Pick(At(426), At(428), At(430), 1), Pick(At(410), At(415), At(420), 1), Pick(At(400), At(418), At(436), 1)]

  lemma MixedIsDistinct()
    ensures DistinctStrikes(Mixed())
  {
  }

  lemma MixedQty(x: int)
    ensures Qty(Mixed(), x) == MixedLeft(0, x)
  {
    hide Qty;
    MixedIsDistinct();
    if Lists(Mixed(), x) {
      var i :| 0 <= i < 9 && Mixed()[i].strike == x;
      QtyAt(Mixed(), i);
    } else {
      UnlistedIsZero(Mixed(), x);
      assert Mixed()[0].strike == At(400) && Mixed()[1].strike == At(410) && Mixed()[2].strike == At(415);
      assert Mixed()[3].strike == At(418) && Mixed()[4].strike == At(420) && Mixed()[5].strike == At(426);
      assert Mixed()[6].strike == At(428) && Mixed()[7].strike == At(430) && Mixed()[8].strike == At(436);
    }
  }

  /** What is left after some of the butterflies found. */
  function MixedLeft(n: nat, x: int): int {
    if (x == At(428) && n < 1) || (x == At(415) && n < 2) || (x == At(418) && n < 3) then -2
    else if ((x == At(426) || x == At(430)) && n < 1) || ((x == At(410) || x == At(420)) && n < 2)
         || ((x == At(400) || x == At(436)) && n < 3) then 1
    else 0
  }

  /** At each time the next butterfly found is the best one. */
  lemma FoundIsBest(b: Book, n: nat)
    requires n < 3 && forall x :: Qty(b, x) == MixedLeft(n, x)
    ensures IsBest(b, FOUND_BUTTERFLIES[n])
  {
    hide Qty;
    var p := FOUND_BUTTERFLIES[n];
    assert IsCandidate(b, p);
    forall q | IsCandidate(b, q)
      ensures q == p || KeyLess(p, q)
    {
      assert Qty(b, q.lower) == MixedLeft(n, q.lower) && Qty(b, q.upper) == MixedLeft(n, q.upper);
      assert Qty(b, q.body) == MixedLeft(n, q.body);
    }
  }

  lemma FoundMoves(b: Book, n: nat)
    requires n < 3 && DistinctStrikes(b) && forall x :: Qty(b, x) == MixedLeft(n, x)
    ensures var c := Take(b, FOUND_BUTTERFLIES[n]);
            DistinctStrikes(c) && forall x :: Qty(c, x) == MixedLeft(n + 1, x)
  {
    hide Qty, Take;
    FoundIsBest(b, n);
    TakeMoves(b, FOUND_BUTTERFLIES[n]);
  }

  lemma {:induction false} FoundSteps(n: nat)
    requires n <= 3
    ensures var found := FOUND_BUTTERFLIES[..n];
            && GreedySteps(Mixed(), found)
            && DistinctStrikes(After(Mixed(), found))
            && forall x :: Qty(After(Mixed(), found), x) == MixedLeft(n, x)
  {
    hide Qty, Take, MixedLeft, IsBest, Mixed;
    if n == 0 {
      MixedIsDistinct();
      forall x {
        MixedQty(x);
      }
    } else {
      var found := FOUND_BUTTERFLIES[..n - 1];
      FoundSteps(n - 1);
      FoundIsBest(After(Mixed(), found), n - 1);
      FoundMoves(After(Mixed(), found), n - 1);
      GreedyExtend(Mixed(), found, FOUND_BUTTERFLIES[n - 1]);
      assert FOUND_BUTTERFLIES[..n] == found + [FOUND_BUTTERFLIES[n - 1]];
    }
  }

  lemma FoundIsAll(picks: seq<Pick>)
    requires Greedy(Mixed(), picks)
    ensures picks == FOUND_BUTTERFLIES && NothingLeft(After(Mixed(), picks))
  {
    hide Qty, Take, GreedySteps, Mixed, After, MixedLeft;
    FoundSteps(3);
    var b, found := Mixed(), FOUND_BUTTERFLIES;
    var c := After(b, found);
    assert FOUND_BUTTERFLIES[..3] == found;
    NothingIsMixed(c);
    MixedIsDistinct();
    DecompositionIsDetermined(b, b, picks, found);
  }

  lemma NothingIsMixed(c: Book)
    requires DistinctStrikes(c) && forall x :: Qty(c, x) == MixedLeft(3, x)
    ensures Exhausted(c) && NothingLeft(c)
  {
    hide Qty;
    forall i | 0 <= i < |c|
      ensures c[i].qty == 0
    {
      QtyAt(c, i);
    }
  }

  lemma MixedTaken(x: int)
    ensures Taken(MIXED_BUTTERFLIES, x) == Qty(Mixed(), x)
  {
    MixedQty(x);
    hide Qty;
    var p, q, r := MIXED_BUTTERFLIES[0], MIXED_BUTTERFLIES[1], MIXED_BUTTERFLIES[2];
    assert MIXED_BUTTERFLIES[..2] == [p, q] && [p, q][..1] == [p] && [p][..0] == [];
    assert Taken([p], x) == -Moved(p, x);
    assert Taken([p, q], x) == -Moved(p, x) - Moved(q, x);
  }

  /** An account of the butterflies 400/415/430, 410/418/426 and 420/428/436 is accepted, but as 426/428/430,
      410/415/420 and 400/418/436: that its own butterflies fit is not necessary. */
  lemma AccountCanBeAcceptedAsAnother(g: Group, structures: seq<Structure>, leftovers: seq<Leg>)
    requires Adopts(ToLegs(Mixed(), g), structures, leftovers)
    ensures forall x :: LegQty(ToLegs(Mixed(), g), g, x) == Taken(MIXED_BUTTERFLIES, x)
    ensures Separate(MIXED_BUTTERFLIES) && !Clear(Mixed(), MIXED_BUTTERFLIES) && !Fits(MIXED_BUTTERFLIES)
    ensures PicksOf(structures, g) == FOUND_BUTTERFLIES && leftovers == []
  {
    hide PicksOf, Mixed, Greedy, After, NothingLeft, Taken, LegQty, ToLegs, Qty, BookOf, Clear, Fits;
    var legs, b := ToLegs(Mixed(), g), Mixed();
    MixedIsDistinct();
    BookOfLegs(b, g);
    BookHoldsLegs(legs, g);
    forall x
      ensures LegQty(legs, g, x) == Taken(MIXED_BUTTERFLIES, x)
    {
      MixedTaken(x);
    }
    assert Settled(legs, structures, leftovers, g);
    var picks := PicksOf(structures, g);
    FoundIsAll(picks);
    NothingIsListed(LegsOf(leftovers, g), After(b, picks));
    ThreeAreSeparate(MIXED_BUTTERFLIES[0], MIXED_BUTTERFLIES[1], MIXED_BUTTERFLIES[2]);
    assert picks[0] in multiset(picks) && picks[0] !in multiset(MIXED_BUTTERFLIES);
    RecoveredIffFits(b, MIXED_BUTTERFLIES, picks);
    FitsIffClear(b, MIXED_BUTTERFLIES);
    ToLegsAt(b, g);
    forall h: Group
      ensures LegsOf(leftovers, h) == []
    {
      if h != g {
        OtherGroupsAreEmpty(legs, structures, leftovers, g, h);
      }
    }
    NoGroupNoLeg(leftovers);
  }

  lemma OtherGroupsAreEmpty(legs: seq<Leg>, structures: seq<Structure>, leftovers: seq<Leg>, g: Group, h: Group)
    requires Adopts(legs, structures, leftovers) && g != h
    requires forall i :: 0 <= i < |legs| ==> legs[i].group == g
    ensures LegsOf(leftovers, h) == []
  {
    hide PicksOf, LegsOf, Greedy;
    assert Settled(legs, structures, leftovers, h);
    AbsentGroupHasNoBook(legs, h);
    NoPicks([], PicksOf(structures, h));
    NothingIsListed(LegsOf(leftovers, h), []);
  }

  /** What an account shows of three butterflies that are one width apart: the inner legs cancel. */
  function Netted(center: int, width: int, lots: int): Book {
    [Entry(center - 2 * width, lots), Entry(center - width, -lots),
     Entry(center + width, -lots), Entry(center + 2 * width, lots)]
  }

  function Corridor(center: int, width: int, lots: int): seq<Pick> {
    [Pick(center - 2 * width, center - width, center, lots), Pick(center - width, center, center + width, lots),
     Pick(center, center + width, center + 2 * width, lots)]
  }

  lemma NettedQty(center: int, width: int, lots: int, x: int)
    requires width > 0
    ensures DistinctStrikes(Netted(center, width, lots))
    ensures Qty(Netted(center, width, lots), x) ==
            if x == center - 2 * width || x == center + 2 * width then lots
            else if x == center - width || x == center + width then -lots
            else 0
    ensures Taken(Corridor(center, width, lots), x) == Qty(Netted(center, width, lots), x)
  {
    var b, ps := Netted(center, width, lots), Corridor(center, width, lots);
    assert b[..3][..2] == b[..2] && b[..2][..1] == b[..1] && b[..1][..0] == [];
    assert Qty(b[..1], x) == if x == b[0].strike then lots else 0;
    assert Qty(b[..2], x) == if x == b[1].strike then -lots else Qty(b[..1], x);
    assert Qty(b[..3], x) == if x == b[2].strike then -lots else Qty(b[..2], x);
    assert ps[..2][..1] == ps[..1] && ps[..1][..0] == [];
    assert Taken(ps[..1], x) == -Moved(ps[0], x);
    assert Taken(ps[..2], x) == -Moved(ps[0], x) - Moved(ps[1], x);
  }

  lemma NettedIsExhausted(center: int, width: int, lots: int)
    requires width > 0 && lots > 0
    ensures Exhausted(Netted(center, width, lots))
  {
    hide Qty, Netted, Taken;
    forall p
      ensures !IsCandidate(Netted(center, width, lots), p)
    {
      NettedQty(center, width, lots, p.lower);
      NettedQty(center, width, lots, p.body);
      NettedQty(center, width, lots, p.upper);
    }
  }

  /** Three butterflies as far apart as they are wide, like the initial corridor of the default configuration, are
      never adopted, however many lots there are: no structure is found, and all legs are left over. */
  lemma AdjacentCorridorIsNotAdopted(
      g: Group, center: int, width: int, lots: int, structures: seq<Structure>, leftovers: seq<Leg>)
    requires width > 0 && lots > 0
    requires Adopts(ToLegs(Netted(center, width, lots), g), structures, leftovers)
    ensures forall x :: LegQty(ToLegs(Netted(center, width, lots), g), g, x) == Taken(Corridor(center, width, lots), x)
    ensures PicksOf(structures, g) == [] && LegsOf(leftovers, g) == ToLegs(Netted(center, width, lots), g)
  {
    hide PicksOf, LegsOf, Greedy, Taken, LegQty, ToLegs, BookOf, Exhausted, Corridor, Qty, ListsLeftovers, Netted;
    var b := Netted(center, width, lots);
    var legs := ToLegs(b, g);
    forall x {
      NettedQty(center, width, lots, x);
    }
    NettedQty(center, width, lots, 0);
    BookOfLegs(b, g);
    BookHoldsLegs(legs, g);
    NettedIsExhausted(center, width, lots);
    assert Settled(legs, structures, leftovers, g);
    NoPicks(b, PicksOf(structures, g));
    assert After(b, []) == b;
    NettedLegs(g, center, width, lots);
    LegsOfAreInGroup(leftovers, g);
    LeftoversAreDetermined(LegsOf(leftovers, g), b, legs, b);
  }

  lemma NettedLegs(g: Group, center: int, width: int, lots: int)
    requires width > 0 && lots > 0
    ensures var b := Netted(center, width, lots);
            && ListsLeftovers(ToLegs(b, g), b)
            && |ToLegs(b, g)| == 4 && forall i :: 0 <= i < 4 ==> ToLegs(b, g)[i].group == g
  {
    var b := Netted(center, width, lots);
    var legs := ToLegs(b, g);
    ToLegsAt(b, g);
    forall x {
      NettedQty(center, width, lots, x);
    }
    hide Qty, ToLegs, Taken, Corridor;
    assert legs[0].strike == center - 2 * width && legs[1].strike == center - width;
    assert legs[2].strike == center + width && legs[3].strike == center + 2 * width;
  }

  lemma {:induction false} ToLegsAt(b: Book, g: Group)
    ensures forall i :: 0 <= i < |b| ==> ToLegs(b, g)[i] == Leg(g, b[i].strike, b[i].qty)
  {
    if b != [] {
      ToLegsAt(b[..|b| - 1], g);
    }
  }
}
