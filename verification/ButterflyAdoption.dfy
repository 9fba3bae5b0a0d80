/** Adopting the option legs of an account as long butterflies, group by group. */
module ButterflyAdoption {
  import opened Options
  import opened Rounding
  import Sets
  import opened Sums

  import opened GreedyButterflies
  import opened StrikeBook

  datatype Group = Group(expiry: string, right: string, tradingClass: Option<string>)

  datatype Leg = Leg(group: Group, strike: int, quantity: int)

  datatype Structure = Structure(group: Group, lower: int, body: int, upper: int, quantity: int)

  /** The counter of one group: its legs added up in order. */
  function BookOf(legs: seq<Leg>, g: Group): Book {
    if legs == [] then []
    else
      var last := legs[|legs| - 1];
      var before := BookOf(legs[..|legs| - 1], g);
      if last.group == g then Add(before, last.strike, last.quantity) else before
  }

  function LegQty(legs: seq<Leg>, g: Group, strike: int): int {
    if legs == [] then 0
    else
      var last := legs[|legs| - 1];
      LegQty(legs[..|legs| - 1], g, strike) + (if last.group == g && last.strike == strike then last.quantity else 0)
  }

  function LegWeight(g: Group, f: int -> real): Leg -> real {
    (leg: Leg) => if leg.group == g then leg.quantity as real * f(leg.strike) else 0.0
  }

  /** Sum of quantity times weight over the legs of a group. */
  function LegValue(legs: seq<Leg>, g: Group, f: int -> real): real {
    Sum(LegWeight(g, f), legs)
  }

  function PicksOf(structures: seq<Structure>, g: Group): seq<Pick> {
    if structures == [] then []
    else
      var last := structures[|structures| - 1];
      PicksOf(structures[..|structures| - 1], g)
      + (if last.group == g then [Pick(last.lower, last.body, last.upper, last.quantity)] else [])
  }

  lemma {:induction false} BookHoldsLegs(legs: seq<Leg>, g: Group)
    ensures DistinctStrikes(BookOf(legs, g))
    ensures forall x :: Qty(BookOf(legs, g), x) == LegQty(legs, g, x)
  {
    hide Add, Qty;
    if legs == [] {
      forall x
        ensures Qty([], x) == 0
      {
        UnlistedIsZero([], x);
      }
    } else {
      var n := |legs| - 1;
      BookHoldsLegs(legs[..n], g);
      AddChangesOne(BookOf(legs[..n], g), legs[n].strike, legs[n].quantity);
    }
  }

  lemma {:induction false} BookKeepsLegValue(legs: seq<Leg>, g: Group, f: int -> real)
    ensures Value(BookOf(legs, g), f) == LegValue(legs, g, f)
  {
    hide Add;
    if legs != [] {
      var n := |legs| - 1;
      BookKeepsLegValue(legs[..n], g, f);
      AddMovesValue(BookOf(legs[..n], g), legs[n].strike, legs[n].quantity, f);
    }
  }

  // ---------- What adoption promises ----------

  /** The legs of a group, as they are listed. */
  function LegsOf(legs: seq<Leg>, g: Group): seq<Leg> {
    if legs == [] then []
    else
      var last := legs[|legs| - 1];
      LegsOf(legs[..|legs| - 1], g) + (if last.group == g then [last] else [])
  }

  /** The leftovers of a group list, by rising strike, exactly the strikes with quantity left. */
  ghost predicate ListsLeftovers(legs: seq<Leg>, b: Book) {
    && (forall i, j :: 0 <= i < j < |legs| ==> legs[i].strike < legs[j].strike)
    && (forall i :: 0 <= i < |legs| ==> legs[i].quantity == Qty(b, legs[i].strike) != 0)
    && (forall x :: Qty(b, x) != 0 ==> exists i :: 0 <= i < |legs| && legs[i].strike == x)
  }

  /** The structures of the group are a complete greedy decomposition of its legs, and the leftovers the rest. */
  ghost predicate Settled(legs: seq<Leg>, structures: seq<Structure>, leftovers: seq<Leg>, g: Group) {
    && Greedy(BookOf(legs, g), PicksOf(structures, g))
    && ListsLeftovers(LegsOf(leftovers, g), After(BookOf(legs, g), PicksOf(structures, g)))
  }

  ghost predicate Adopts(legs: seq<Leg>, structures: seq<Structure>, leftovers: seq<Leg>) {
    forall g: Group :: Settled(legs, structures, leftovers, g)
  }

  // ---------- The algorithm ----------

  /** All candidates of the book, found by trying every body with every lower strike. */
  method FindCandidates(counts: Book) returns (cands: seq<Pick>)
    requires DistinctStrikes(counts)
    ensures forall k :: 0 <= k < |cands| ==> IsCandidate(counts, cands[k])
    ensures forall p :: IsCandidate(counts, p) ==> exists k :: 0 <= k < |cands| && cands[k] == p
  {
    hide Qty;
    cands := [];
    for i := 0 to |counts|
      invariant forall k :: 0 <= k < |cands| ==> IsCandidate(counts, cands[k])
      invariant forall p, h :: IsCandidate(counts, p) && 0 <= h < i && p.body == counts[h].strike ==>
                  exists k :: 0 <= k < |cands| && cands[k] == p
    {
      var body := counts[i];
      QtyAt(counts, i);
      if body.qty <= -2 {
        cands := TryLowers(counts, i, cands);
      }
    }
    forall p | IsCandidate(counts, p)
      ensures exists k :: 0 <= k < |cands| && cands[k] == p
    {
      CandidateIsListed(counts, p);
      var h := ListedAt(counts, p.body);
      assert counts[h].strike == p.body;
    }
  }

  /** Extend the candidates by those on one body. */
  method TryLowers(counts: Book, i: nat, found: seq<Pick>) returns (cands: seq<Pick>)
    requires DistinctStrikes(counts) && i < |counts| && counts[i].qty <= -2
    requires forall k :: 0 <= k < |found| ==> IsCandidate(counts, found[k])
    ensures found <= cands
    ensures forall k :: 0 <= k < |cands| ==> IsCandidate(counts, cands[k])
    ensures forall p :: IsCandidate(counts, p) && p.body == counts[i].strike ==>
              exists k :: 0 <= k < |cands| && cands[k] == p
  {
    hide Qty;
    var body := counts[i];
    QtyAt(counts, i);
    cands := found;
    for j := 0 to |counts|
      invariant found <= cands
      invariant forall k :: 0 <= k < |cands| ==> IsCandidate(counts, cands[k])
      invariant forall p, h ::
                  IsCandidate(counts, p) && p.body == body.strike && 0 <= h < j && p.lower == counts[h].strike ==>
                  exists k :: 0 <= k < |cands| && cands[k] == p
    {
      var lower := counts[j];
      QtyAt(counts, j);
      ghost var before := cands;
      if lower.strike < body.strike && lower.qty > 0 {
        var width := body.strike - lower.strike;
        var upper := body.strike + width;
        var upperQty := Qty(counts, upper);
        if upperQty > 0 {
          var lots := Min(Min(lower.qty, upperQty), AbsI(body.qty) / 2);
          cands := cands + [Pick(lower.strike, body.strike, upper, lots)];
        }
      }
      forall p, h | IsCandidate(counts, p) && p.body == body.strike && 0 <= h < j + 1 && p.lower == counts[h].strike
        ensures exists k :: 0 <= k < |cands| && cands[k] == p
      {
        if h < j {
          var k :| 0 <= k < |before| && before[k] == p;
          assert cands[k] == p;
        } else {
          assert cands[|cands| - 1] == p;
        }
      }
    }
    forall p | IsCandidate(counts, p) && p.body == body.strike
      ensures exists k :: 0 <= k < |cands| && cands[k] == p
    {
      CandidateIsListed(counts, p);
      var h := ListedAt(counts, p.lower);
      assert counts[h].strike == p.lower;
    }
  }

  lemma CandidatesAreOrdered(b: Book, p: Pick, q: Pick)
    requires IsCandidate(b, p) && IsCandidate(b, q)
    ensures p == q || KeyLess(p, q) || KeyLess(q, p)
  {
    hide Qty;
  }

  method PickMinimum(counts: Book, cands: seq<Pick>) returns (best: Pick)
    requires cands != []
    requires forall k :: 0 <= k < |cands| ==> IsCandidate(counts, cands[k])
    ensures exists k :: 0 <= k < |cands| && cands[k] == best
    ensures forall k :: 0 <= k < |cands| ==> cands[k] == best || KeyLess(best, cands[k])
  {
    hide IsCandidate, KeyLess;
    best := cands[0];
    for i := 1 to |cands|
      invariant exists k :: 0 <= k < |cands| && cands[k] == best
      invariant forall k :: 0 <= k < i ==> cands[k] == best || KeyLess(best, cands[k])
    {
      CandidatesAreOrdered(counts, best, cands[i]);
      if KeyLess(cands[i], best) {
        forall k | 0 <= k < i
          ensures cands[k] == cands[i] || KeyLess(cands[i], cands[k])
        {
          if cands[k] != best {
            KeyLessIsTransitive(cands[i], best, cands[k]);
          }
        }
        best := cands[i];
      }
    }
  }

  /** Take the best candidate until there is none. Each pass uses up a strike, so the loop ends. */
  method Decompose(initial: Book) returns (picks: seq<Pick>, counts: Book)
    requires DistinctStrikes(initial)
    ensures Greedy(initial, picks) && counts == After(initial, picks)
  {
    hide Take, Qty, UsableCount, KeyLess, IsCandidate;
    picks, counts := [], initial;
    while true
      invariant GreedySteps(initial, picks) && counts == After(initial, picks)
      decreases UsableCount(counts)
    {
      StepsKeepBook(initial, picks);
      var cands := FindCandidates(counts);
      if cands == [] {
        break;
      }
      var best := PickMinimum(counts, cands);
      assert IsBest(counts, best);
      GreedyExtend(initial, picks, best);
      TakeUsesUpStrike(counts, best);
      picks := picks + [best];
      counts := Take(counts, best);
    }
  }

  // ---------- Sorted leftovers ----------

  function InsertEntry(sorted: Book, e: Entry): Book {
    if sorted == [] || sorted[|sorted| - 1].strike < e.strike then sorted + [e]
    else InsertEntry(sorted[..|sorted| - 1], e) + [sorted[|sorted| - 1]]
  }

  ghost predicate Rising(b: Book) {
    forall i, j :: 0 <= i < j < |b| ==> b[i].strike < b[j].strike
  }

  ghost predicate HasEntry(b: Book, e: Entry) {
    exists i :: 0 <= i < |b| && b[i] == e
  }

  lemma {:induction false} InsertKeepsRising(sorted: Book, e: Entry)
    requires Rising(sorted) && forall i :: 0 <= i < |sorted| ==> sorted[i].strike != e.strike
    ensures Rising(InsertEntry(sorted, e))
    ensures forall x :: HasEntry(InsertEntry(sorted, e), x) <==> x == e || HasEntry(sorted, x)
  {
    if sorted == [] || sorted[|sorted| - 1].strike < e.strike {
      EntrySnoc(sorted, e);
    } else {
      var n := |sorted| - 1;
      InsertKeepsRising(sorted[..n], e);
      var front := InsertEntry(sorted[..n], e);
      EntrySnoc(front, sorted[n]);
      EntrySnoc(sorted[..n], sorted[n]);
      assert sorted == sorted[..n] + [sorted[n]];
      forall i | 0 <= i < |front|
        ensures front[i].strike < sorted[n].strike
      {
        assert HasEntry(front, front[i]);
      }
    }
  }

  lemma EntrySnoc(b: Book, e: Entry)
    ensures forall x :: HasEntry(b + [e], x) <==> x == e || HasEntry(b, x)
  {
    forall x
      ensures HasEntry(b + [e], x) <==> x == e || HasEntry(b, x)
    {
      if HasEntry(b, x) {
        var i :| 0 <= i < |b| && b[i] == x;
        assert (b + [e])[i] == x;
      }
      assert (b + [e])[|b|] == e;
    }
  }

  /** The entries in order of strike. */
  function SortBook(b: Book): Book {
    if b == [] then [] else InsertEntry(SortBook(b[..|b| - 1]), b[|b| - 1])
  }

  lemma {:induction false} SortBookSorts(b: Book)
    requires DistinctStrikes(b)
    ensures Rising(SortBook(b))
    ensures forall x :: HasEntry(SortBook(b), x) <==> HasEntry(b, x)
  {
    if b != [] {
      var n := |b| - 1;
      SortBookSorts(b[..n]);
      EntrySnoc(b[..n], b[n]);
      assert b == b[..n] + [b[n]];
      var before := SortBook(b[..n]);
      forall i | 0 <= i < |before|
        ensures before[i].strike != b[n].strike
      {
        assert HasEntry(before, before[i]);
      }
      InsertKeepsRising(before, b[n]);
    }
  }

  method CollectLeftovers(counts: Book, g: Group) returns (legs: seq<Leg>)
    requires DistinctStrikes(counts)
    ensures ListsLeftovers(legs, counts)
    ensures forall i :: 0 <= i < |legs| ==> legs[i].group == g
  {
    hide Qty, SortBook, HasEntry, ListsLeftovers;
    var sorted := SortBook(counts);
    SortBookSorts(counts);
    legs := [];
    ghost var from: seq<int> := [];
    for n := 0 to |sorted|
      invariant ComesFrom(legs, g, sorted, from, n)
    {
      if sorted[n].qty != 0 {
        ComesFromOneMore(legs, g, sorted, from, n);
        legs := legs + [Leg(g, sorted[n].strike, sorted[n].qty)];
        from := from + [n];
      }
    }
    LeftoversMatch(counts, sorted, legs, g, from);
  }

  /** The legs are the entries with quantity among the first `n`, in order; `from` says which ones. */
  ghost predicate ComesFrom(legs: seq<Leg>, g: Group, sorted: Book, from: seq<int>, n: nat) {
    && n <= |sorted|
    && |from| == |legs|
    && (forall i, j :: 0 <= i < j < |from| ==> from[i] < from[j])
    && (forall i :: 0 <= i < |from| ==>
          0 <= from[i] < n
          && legs[i] == Leg(g, sorted[from[i]].strike, sorted[from[i]].qty)
          && legs[i].quantity != 0)
    && (forall k :: 0 <= k < n && sorted[k].qty != 0 ==> exists i :: 0 <= i < |from| && from[i] == k)
  }

  lemma ComesFromOneMore(legs: seq<Leg>, g: Group, sorted: Book, from: seq<int>, n: nat)
    requires n < |sorted| && sorted[n].qty != 0 && ComesFrom(legs, g, sorted, from, n)
    ensures ComesFrom(legs + [Leg(g, sorted[n].strike, sorted[n].qty)], g, sorted, from + [n], n + 1)
  {
    var after := from + [n];
    forall k | 0 <= k < n + 1 && sorted[k].qty != 0
      ensures exists i :: 0 <= i < |after| && after[i] == k
    {
      if k < n {
        var i :| 0 <= i < |from| && from[i] == k;
        assert after[i] == k;
      } else {
        assert after[|from|] == k;
      }
    }
  }

  lemma LeftoversMatch(counts: Book, sorted: Book, legs: seq<Leg>, g: Group, from: seq<int>)
    requires DistinctStrikes(counts) && Rising(sorted) && forall x :: HasEntry(sorted, x) <==> HasEntry(counts, x)
    requires ComesFrom(legs, g, sorted, from, |sorted|)
    ensures ListsLeftovers(legs, counts) && forall i :: 0 <= i < |legs| ==> legs[i].group == g
  {
    hide Qty;
    forall i | 0 <= i < |legs|
      ensures legs[i].quantity == Qty(counts, legs[i].strike) && legs[i].group == g
    {
      assert sorted[from[i]] == Entry(legs[i].strike, legs[i].quantity);
      assert HasEntry(sorted, Entry(legs[i].strike, legs[i].quantity));
      var k :| 0 <= k < |counts| && counts[k] == Entry(legs[i].strike, legs[i].quantity);
      QtyAt(counts, k);
    }
    forall x | Qty(counts, x) != 0
      ensures exists i :: 0 <= i < |legs| && legs[i].strike == x
    {
      if !Lists(counts, x) {
        UnlistedIsZero(counts, x);
      }
      var k := ListedAt(counts, x);
      QtyAt(counts, k);
      assert HasEntry(counts, counts[k]);
      var m :| 0 <= m < |sorted| && sorted[m] == counts[k];
      var i :| 0 <= i < |from| && from[i] == m;
      assert legs[i].strike == x;
    }
  }

  // ---------- All groups ----------

  ghost predicate HasGroup(groups: seq<Group>, g: Group) {
    exists k :: 0 <= k < |groups| && groups[k] == g
  }

  /** The place of the group, or the end. */
  function Rank(groups: seq<Group>, g: Group): (k: nat)
    ensures k <= |groups| && (k < |groups| ==> groups[k] == g)
    ensures forall i :: 0 <= i < k ==> groups[i] != g
  {
    if groups == [] || groups[0] == g then 0 else 1 + Rank(groups[1..], g)
  }

  /** The groups in the order in which they first appear. */
  function GroupsOf(legs: seq<Leg>): seq<Group> {
    if legs == [] then []
    else
      var before, g := GroupsOf(legs[..|legs| - 1]), legs[|legs| - 1].group;
      if Rank(before, g) < |before| then before else before + [g]
  }

  /** The counters of all groups, in the order in which the groups first appear. */
  ghost predicate Grouped(legs: seq<Leg>, groups: seq<Group>, books: seq<Book>) {
    && groups == GroupsOf(legs) && |books| == |groups|
    && (forall i, j :: 0 <= i < j < |groups| ==> groups[i] != groups[j])
    && (forall i :: 0 <= i < |groups| ==> books[i] == BookOf(legs, groups[i]))
    && (forall i :: 0 <= i < |legs| ==> HasGroup(groups, legs[i].group))
  }

  lemma {:induction false} AbsentGroupHasNoBook(legs: seq<Leg>, g: Group)
    requires forall i :: 0 <= i < |legs| ==> legs[i].group != g
    ensures BookOf(legs, g) == []
  {
    if legs != [] {
      AbsentGroupHasNoBook(legs[..|legs| - 1], g);
    }
  }

  function GroupsWith(groups: seq<Group>, g: Group): seq<Group> {
    if Rank(groups, g) < |groups| then groups else groups + [g]
  }

  function BooksWith(groups: seq<Group>, books: seq<Book>, leg: Leg): seq<Book>
    requires |books| == |groups|
  {
    var k := Rank(groups, leg.group);
    var all := if k < |groups| then books else books + [[]];
    all[k := Add(all[k], leg.strike, leg.quantity)]
  }

  lemma GroupsStayDistinct(groups: seq<Group>, g: Group)
    requires forall i, j :: 0 <= i < j < |groups| ==> groups[i] != groups[j]
    ensures var all := GroupsWith(groups, g);
            && (forall i, j :: 0 <= i < j < |all| ==> all[i] != all[j])
            && (forall h :: HasGroup(groups, h) || h == g ==> HasGroup(all, h))
  {
    var all := GroupsWith(groups, g);
    assert all[Rank(groups, g)] == g;
    forall h | HasGroup(groups, h)
      ensures HasGroup(all, h)
    {
      var m :| 0 <= m < |groups| && groups[m] == h;
      assert all[m] == h;
    }
  }

  lemma GroupedOneMore(legs: seq<Leg>, n: nat, groups: seq<Group>, books: seq<Book>)
    requires n < |legs| && Grouped(legs[..n], groups, books)
    ensures Grouped(legs[..n + 1], GroupsWith(groups, legs[n].group), BooksWith(groups, books, legs[n]))
  {
    hide Add, HasGroup;
    var leg, seen := legs[n], legs[..n + 1];
    assert seen[..n] == legs[..n];
    GroupsStayDistinct(groups, leg.group);
    forall i | 0 <= i < |seen|
      ensures HasGroup(GroupsWith(groups, leg.group), seen[i].group)
    {
      if i < n {
        assert legs[..n][i] == seen[i];
      }
    }
    if Rank(groups, leg.group) == |groups| {
      NewGroupIsAbsent(legs[..n], groups, leg.group);
      AbsentGroupHasNoBook(legs[..n], leg.group);
    }
  }

  lemma NewGroupIsAbsent(legs: seq<Leg>, groups: seq<Group>, g: Group)
    requires Rank(groups, g) == |groups| && forall i :: 0 <= i < |legs| ==> HasGroup(groups, legs[i].group)
    ensures forall i :: 0 <= i < |legs| ==> legs[i].group != g
  {
  }

  method GroupLegs(legs: seq<Leg>) returns (groups: seq<Group>, books: seq<Book>)
    ensures Grouped(legs, groups, books)
  {
    assert legs[..0] == [] && GroupsOf([]) == [];
    hide Add, HasGroup, BookOf, GroupsOf;
    groups, books := [], [];
    for n := 0 to |legs|
      invariant Grouped(legs[..n], groups, books)
    {
      var leg := legs[n];
      GroupedOneMore(legs, n, groups, books);
      var k := FindGroup(groups, leg.group);
      if k == |groups| {
        groups := groups + [leg.group];
        books := books + [[]];
      }
      books := books[k := Add(books[k], leg.strike, leg.quantity)];
    }
    assert legs[..|legs|] == legs;
  }

  method FindGroup(groups: seq<Group>, g: Group) returns (k: nat)
    ensures k == Rank(groups, g)
  {
    k := 0;
    while k < |groups| && groups[k] != g
      invariant k <= |groups|
      invariant forall i :: 0 <= i < k ==> groups[i] != g
    {
      k := k + 1;
    }
  }

  function ToStructures(g: Group, picks: seq<Pick>): seq<Structure> {
    if picks == [] then []
    else
      var p := picks[|picks| - 1];
      ToStructures(g, picks[..|picks| - 1]) + [Structure(g, p.lower, p.body, p.upper, p.lots)]
  }

  lemma {:induction false} PicksOfConcat(a: seq<Structure>, b: seq<Structure>, g: Group)
    ensures PicksOf(a + b, g) == PicksOf(a, g) + PicksOf(b, g)
  {
    if b == [] {
      assert a + b == a;
    } else {
      assert (a + b)[..|a + b| - 1] == a + b[..|b| - 1];
      PicksOfConcat(a, b[..|b| - 1], g);
    }
  }

  lemma {:induction false} PicksOfOneGroup(g: Group, picks: seq<Pick>, h: Group)
    ensures PicksOf(ToStructures(g, picks), h) == if h == g then picks else []
  {
    if picks != [] {
      var n := |picks| - 1;
      var p := picks[n];
      PicksOfOneGroup(g, picks[..n], h);
      PicksOfConcat(ToStructures(g, picks[..n]), [Structure(g, p.lower, p.body, p.upper, p.lots)], h);
      PicksOfOne(Structure(g, p.lower, p.body, p.upper, p.lots), h);
      assert picks[..n] + [p] == picks;
    }
  }

  lemma PicksOfOne(s: Structure, h: Group)
    ensures PicksOf([s], h) == if s.group == h then [Pick(s.lower, s.body, s.upper, s.quantity)] else []
  {
    assert [s][..0] == [];
  }

  lemma {:induction false} StructuresAreInGroup(g: Group, picks: seq<Pick>)
    ensures forall i :: 0 <= i < |ToStructures(g, picks)| ==> ToStructures(g, picks)[i].group == g
  {
    if picks != [] {
      StructuresAreInGroup(g, picks[..|picks| - 1]);
    }
  }

  lemma {:induction false} LegsOfConcat(a: seq<Leg>, b: seq<Leg>, g: Group)
    ensures LegsOf(a + b, g) == LegsOf(a, g) + LegsOf(b, g)
  {
    if b == [] {
      assert a + b == a;
    } else {
      assert (a + b)[..|a + b| - 1] == a + b[..|b| - 1];
      LegsOfConcat(a, b[..|b| - 1], g);
    }
  }

  lemma {:induction false} LegsOfOneGroup(legs: seq<Leg>, g: Group, h: Group)
    requires forall i :: 0 <= i < |legs| ==> legs[i].group == g
    ensures LegsOf(legs, h) == if h == g then legs else []
  {
    if legs != [] {
      var n := |legs| - 1;
      LegsOfOneGroup(legs[..n], g, h);
      assert legs[..n] + [legs[n]] == legs;
    }
  }

  lemma EmptyGroupIsSettled(legs: seq<Leg>, structures: seq<Structure>, leftovers: seq<Leg>, g: Group)
    requires BookOf(legs, g) == [] && PicksOf(structures, g) == [] && LegsOf(leftovers, g) == []
    ensures Settled(legs, structures, leftovers, g)
  {
    var b, picks, rest := BookOf(legs, g), PicksOf(structures, g), LegsOf(leftovers, g);
    assert forall x :: Qty(b, x) == 0;
    assert After(b, picks) == b;
    assert Greedy(b, picks);
    assert ListsLeftovers(rest, b);
  }

  /** Long butterflies of every group, narrowest first, and the legs that none of them explains; the groups follow in
      the order in which the account first shows them. */
  method InferLongButterflies(legs: seq<Leg>) returns (structures: seq<Structure>, leftovers: seq<Leg>)
    ensures Adopts(legs, structures, leftovers)
    ensures FollowsGroups(GroupsOf(legs), structures, leftovers)
  {
    hide Greedy, After, ListsLeftovers, BookOf, PicksOf, LegsOf, GroupsOf;
    var groups, books := GroupLegs(legs);
    structures, leftovers := [], [];
    NothingYet();
    for n := 0 to |groups|
      invariant forall g :: HasGroup(groups[..n], g) ==> Settled(legs, structures, leftovers, g)
      invariant forall g :: !HasGroup(groups[..n], g) ==> PicksOf(structures, g) == [] && LegsOf(leftovers, g) == []
      invariant FollowsGroups(groups, structures, leftovers) && RanksBelow(groups, structures, leftovers, n)
    {
      BookHoldsLegs(legs, groups[n]);
      var picks, counts := Decompose(books[n]);
      StepsKeepBookOf(books[n], picks);
      var rest := CollectLeftovers(counts, groups[n]);
      ghost var before, beforeRest := structures, leftovers;
      assert !HasGroup(groups[..n], groups[n]);
      structures := structures + ToStructures(groups[n], picks);
      leftovers := leftovers + rest;
      StructuresAreInGroup(groups[n], picks);
      NextGroupFollows(groups, before, beforeRest, n, ToStructures(groups[n], picks), rest);
      forall g
        ensures HasGroup(groups[..n + 1], g) <==> g == groups[n] || HasGroup(groups[..n], g)
        ensures PicksOf(structures, g) == if g == groups[n] then picks else PicksOf(before, g)
        ensures LegsOf(leftovers, g) == if g == groups[n] then rest else LegsOf(beforeRest, g)
      {
        GroupSnoc(groups, n, g);
        PicksOfConcat(before, ToStructures(groups[n], picks), g);
        PicksOfOneGroup(groups[n], picks, g);
        LegsOfConcat(beforeRest, rest, g);
        LegsOfOneGroup(rest, groups[n], g);
      }
    }
    assert groups[..|groups|] == groups;
    forall g: Group
      ensures Settled(legs, structures, leftovers, g)
    {
      if !HasGroup(groups, g) {
        AbsentGroupHasNoBook(legs, g);
        EmptyGroupIsSettled(legs, structures, leftovers, g);
      }
    }
  }

  /** Structures and leftovers are listed group after group. */
  ghost predicate FollowsGroups(groups: seq<Group>, structures: seq<Structure>, leftovers: seq<Leg>) {
    && (forall i, j :: 0 <= i < j < |structures| ==>
          Rank(groups, structures[i].group) <= Rank(groups, structures[j].group))
    && (forall i, j :: 0 <= i < j < |leftovers| ==>
          Rank(groups, leftovers[i].group) <= Rank(groups, leftovers[j].group))
  }

  ghost predicate RanksBelow(groups: seq<Group>, structures: seq<Structure>, leftovers: seq<Leg>, n: nat) {
    && (forall i :: 0 <= i < |structures| ==> Rank(groups, structures[i].group) < n)
    && (forall i :: 0 <= i < |leftovers| ==> Rank(groups, leftovers[i].group) < n)
  }

  lemma NextGroupFollows(groups: seq<Group>, structures: seq<Structure>, leftovers: seq<Leg>, n: nat,
                         more: seq<Structure>, rest: seq<Leg>)
    requires n < |groups| && forall i, j :: 0 <= i < j < |groups| ==> groups[i] != groups[j]
    requires FollowsGroups(groups, structures, leftovers) && RanksBelow(groups, structures, leftovers, n)
    requires forall i :: 0 <= i < |more| ==> more[i].group == groups[n]
    requires forall i :: 0 <= i < |rest| ==> rest[i].group == groups[n]
    ensures FollowsGroups(groups, structures + more, leftovers + rest)
    ensures RanksBelow(groups, structures + more, leftovers + rest, n + 1)
  {
    assert Rank(groups, groups[n]) == n;
  }

  lemma NothingYet()
    ensures forall g :: PicksOf([], g) == [] && LegsOf([], g) == []
  {
  }

  lemma StepsKeepBookOf(b: Book, picks: seq<Pick>)
    requires DistinctStrikes(b) && Greedy(b, picks)
    ensures DistinctStrikes(After(b, picks))
  {
    StepsKeepBook(b, picks);
  }

  lemma GroupSnoc(groups: seq<Group>, n: nat, g: Group)
    requires n < |groups|
    ensures HasGroup(groups[..n + 1], g) <==> g == groups[n] || HasGroup(groups[..n], g)
  {
    assert groups[..n + 1][n] == groups[n];
    if HasGroup(groups[..n], g) {
      var k :| 0 <= k < n && groups[..n][k] == g;
      assert groups[..n + 1][k] == g;
    }
    if HasGroup(groups[..n + 1], g) && g != groups[n] {
      var k :| 0 <= k < n + 1 && groups[..n + 1][k] == g;
      assert groups[..n][k] == g;
    }
  }

  // ---------- What follows for the account ----------

  lemma {:induction false} LegsOfQty(legs: seq<Leg>, g: Group, x: int)
    ensures LegQty(legs, g, x) == LegQty(LegsOf(legs, g), g, x)
  {
    if legs != [] {
      var n := |legs| - 1;
      LegsOfQty(legs[..n], g, x);
      if legs[n].group == g {
        assert LegsOf(legs, g)[..|LegsOf(legs, g)| - 1] == LegsOf(legs[..n], g);
      } else {
        assert LegsOf(legs, g) == LegsOf(legs[..n], g);
      }
    }
  }

  lemma {:induction false} LegsOfAreInGroup(legs: seq<Leg>, g: Group)
    ensures forall i :: 0 <= i < |LegsOf(legs, g)| ==> LegsOf(legs, g)[i].group == g
  {
    if legs != [] {
      LegsOfAreInGroup(legs[..|legs| - 1], g);
    }
  }

  /** On rising strikes a strike is listed once, so its leg quantity is the quantity listed. */
  lemma {:induction false} RisingLegQty(legs: seq<Leg>, g: Group, x: int)
    requires forall i, j :: 0 <= i < j < |legs| ==> legs[i].strike < legs[j].strike
    requires forall i :: 0 <= i < |legs| ==> legs[i].group == g
    ensures (forall i :: 0 <= i < |legs| ==> legs[i].strike != x) ==> LegQty(legs, g, x) == 0
    ensures forall i :: 0 <= i < |legs| && legs[i].strike == x ==> LegQty(legs, g, x) == legs[i].quantity
  {
    if legs != [] {
      var n := |legs| - 1;
      RisingLegQty(legs[..n], g, x);
      assert forall i :: 0 <= i < n ==> legs[..n][i] == legs[i];
    }
  }

  /** For every group and strike the account's quantity is the leftover plus what the structures hold. */
  lemma AccountIsConserved(legs: seq<Leg>, structures: seq<Structure>, leftovers: seq<Leg>, g: Group, x: int)
    requires Adopts(legs, structures, leftovers)
    ensures LegQty(legs, g, x) == LegQty(leftovers, g, x) + Taken(PicksOf(structures, g), x)
    ensures 0 <= LegQty(leftovers, g, x) <= LegQty(legs, g, x) || LegQty(legs, g, x) <= LegQty(leftovers, g, x) <= 0
  {
    hide Qty, After, LegQty, Greedy;
    assert Settled(legs, structures, leftovers, g);
    var b, picks, rest := BookOf(legs, g), PicksOf(structures, g), LegsOf(leftovers, g);
    BookHoldsLegs(legs, g);
    GreedyConserves(b, picks, x);
    LegsOfQty(leftovers, g, x);
    LegsOfAreInGroup(leftovers, g);
    RisingLegQty(rest, g, x);
  }

  lemma GreedyConserves(b: Book, picks: seq<Pick>, x: int)
    requires DistinctStrikes(b) && Greedy(b, picks)
    ensures Qty(b, x) == Qty(After(b, picks), x) + Taken(picks, x)
    ensures 0 <= Qty(After(b, picks), x) <= Qty(b, x) || Qty(b, x) <= Qty(After(b, picks), x) <= 0
  {
    QuantityIsConserved(b, picks, x);
    StepsKeepBook(b, picks);
  }

  lemma {:induction false} LegQtyConcat(a: seq<Leg>, b: seq<Leg>, g: Group, x: int)
    ensures LegQty(a + b, g, x) == LegQty(a, g, x) + LegQty(b, g, x)
  {
    if b == [] {
      assert a + b == a;
    } else {
      assert (a + b)[..|a + b| - 1] == a + b[..|b| - 1];
      LegQtyConcat(a, b[..|b| - 1], g, x);
    }
  }

  /** Quantities do not depend on the order of the legs. */
  lemma {:induction false} LegQtyIgnoresOrder(a: seq<Leg>, b: seq<Leg>, g: Group, x: int)
    requires multiset(a) == multiset(b)
    ensures LegQty(a, g, x) == LegQty(b, g, x)
    decreases |a|
  {
    hide LegQty;
    if a == [] {
      assert |multiset(b)| == 0;
    } else {
      var n := |a| - 1;
      var k := Sets.Twin(a, b);
      LegQtyIgnoresOrder(a[..n], b[..k] + b[k + 1..], g, x);
      assert a == a[..n] + [a[n]];
      LegQtyConcat(a[..n], [a[n]], g, x);
      LegQtyWithout(b, k, g, x);
    }
  }

  lemma LegQtyWithout(b: seq<Leg>, k: nat, g: Group, x: int)
    requires k < |b|
    ensures LegQty(b, g, x) == LegQty(b[..k] + b[k + 1..], g, x) + LegQty([b[k]], g, x)
  {
    hide LegQty;
    assert b == (b[..k] + [b[k]]) + b[k + 1..];
    LegQtyConcat(b[..k], b[k + 1..], g, x);
    LegQtyConcat(b[..k] + [b[k]], b[k + 1..], g, x);
    LegQtyConcat(b[..k], [b[k]], g, x);
  }

  function Strikes(legs: seq<Leg>): (strikes: seq<int>)
    ensures |strikes| == |legs|
    ensures forall i :: 0 <= i < |legs| ==> strikes[i] == legs[i].strike
  {
    seq(|legs|, i requires 0 <= i < |legs| => legs[i].strike)
  }

  lemma ListedStrikes(legs: seq<Leg>, b: Book)
    requires ListsLeftovers(legs, b)
    ensures Sets.Rising(Strikes(legs))
    ensures forall x :: Sets.Contains(Strikes(legs), x) <==> Qty(b, x) != 0
  {
    hide Qty;
    var strikes := Strikes(legs);
    forall x
      ensures Sets.Contains(strikes, x) <==> Qty(b, x) != 0
    {
      if Qty(b, x) != 0 {
        var i :| 0 <= i < |legs| && legs[i].strike == x;
        assert strikes[i] == x;
      }
    }
  }

  /** The leftovers of a group are determined by what is left. */
  lemma LeftoversAreDetermined(legs: seq<Leg>, b: Book, legs': seq<Leg>, b': Book)
    requires ListsLeftovers(legs, b) && ListsLeftovers(legs', b') && SameQuantities(b, b')
    requires forall i, j :: 0 <= i < |legs| && 0 <= j < |legs'| ==> legs[i].group == legs'[j].group
    ensures legs == legs'
  {
    hide Qty;
    ListedStrikes(legs, b);
    ListedStrikes(legs', b');
    Sets.SameRising(Strikes(legs), Strikes(legs'));
    forall i | 0 <= i < |legs|
      ensures legs[i] == legs'[i]
    {
      assert Strikes(legs)[i] == Strikes(legs')[i];
      assert Qty(b, legs[i].strike) == Qty(b', legs[i].strike);
    }
  }

  /** The structures and leftovers of a group do not depend on the order in which the account lists its legs. */
  lemma AdoptionIgnoresLegOrder(
      legs: seq<Leg>, structures: seq<Structure>, leftovers: seq<Leg>,
      legs': seq<Leg>, structures': seq<Structure>, leftovers': seq<Leg>, g: Group)
    requires Adopts(legs, structures, leftovers) && Adopts(legs', structures', leftovers')
    requires multiset(legs) == multiset(legs')
    ensures PicksOf(structures, g) == PicksOf(structures', g)
    ensures LegsOf(leftovers, g) == LegsOf(leftovers', g)
    ensures forall x :: LegQty(leftovers, g, x) == LegQty(leftovers', g, x)
  {
    hide Qty, After, LegQty, Greedy, ListsLeftovers, LegsOf, PicksOf, BookOf;
    assert Settled(legs, structures, leftovers, g) && Settled(legs', structures', leftovers', g);
    BookHoldsLegs(legs, g);
    BookHoldsLegs(legs', g);
    forall x
      ensures LegQty(legs, g, x) == LegQty(legs', g, x)
    {
      LegQtyIgnoresOrder(legs, legs', g, x);
    }
    DecompositionIsDetermined(BookOf(legs, g), BookOf(legs', g), PicksOf(structures, g), PicksOf(structures', g));
    LegsOfAreInGroup(leftovers, g);
    LegsOfAreInGroup(leftovers', g);
    LeftoversAreDetermined(LegsOf(leftovers, g), After(BookOf(legs, g), PicksOf(structures, g)),
                           LegsOf(leftovers', g), After(BookOf(legs', g), PicksOf(structures', g)));
    forall x
      ensures LegQty(leftovers, g, x) == LegQty(leftovers', g, x)
    {
      LegsOfQty(leftovers, g, x);
      LegsOfQty(leftovers', g, x);
    }
  }

  lemma {:induction false} NoLeftoversLeaveNothing(b: Book)
    requires DistinctStrikes(b) && ListsLeftovers([], b)
    ensures NothingLeft(b)
  {
    hide Qty;
    forall i | 0 <= i < |b|
      ensures b[i].qty == 0
    {
      QtyAt(b, i);
      assert Qty(b, b[i].strike) == 0;
    }
  }

  /** An account that is adopted without leftovers has, in every group and at every spot, an expiry payoff between
      zero and the widths of its butterflies; calls and puts of the same strikes pay the same; and its net
      quantity and net strike-weighted quantity are zero. */
  lemma AdoptedAccountIsBracketed(legs: seq<Leg>, structures: seq<Structure>, g: Group, spot: real)
    requires Adopts(legs, structures, [])
    ensures 0.0 <= LegValue(legs, g, Call(spot)) <= Sum(MaxWorth(), PicksOf(structures, g))
    ensures LegValue(legs, g, Call(spot)) == LegValue(legs, g, Put(spot))
    ensures LegValue(legs, g, Put(spot)) == Sum(TentWorth(spot), PicksOf(structures, g))
    ensures LegValue(legs, g, One()) == 0.0 && LegValue(legs, g, Strike()) == 0.0
  {
    hide Qty, LegValue, Value, After, Call, Put, One, Strike, GreedySteps, Sum;
    var b, picks := BookOf(legs, g), PicksOf(structures, g);
    assert Settled(legs, structures, [], g) && LegsOf([], g) == [];
    BookHoldsLegs(legs, g);
    StepsKeepBook(b, picks);
    NoLeftoversLeaveNothing(After(b, picks));
    AdoptedBookIsBracketed(b, picks, spot);
    PayoffIsTentsAndLeftovers(b, picks, spot);
    EmptyBookIsWorthless(After(b, picks), Call(spot));
    BookKeepsLegValue(legs, g, Call(spot));
    BookKeepsLegValue(legs, g, Put(spot));
    BookKeepsLegValue(legs, g, One());
    BookKeepsLegValue(legs, g, Strike());
  }

  // ---------- Layer kinds ----------

  datatype LayerKind = Primary | Supplemental

  function BodySum(structures: seq<Structure>): int {
    if structures == [] then 0
    else BodySum(structures[..|structures| - 1]) + structures[|structures| - 1].body
  }

  /** Distance of a body from the mean of all bodies, times the number of structures. */
  function DistanceToMean(structures: seq<Structure>, i: nat): int
    requires i < |structures|
  {
    AbsI(structures[i].body * |structures| - BodySum(structures))
  }

  /** One structure is primary: the first of those whose body is nearest to the mean body. */
  method AssignLayerKinds(structures: seq<Structure>) returns (kinds: seq<LayerKind>)
    ensures |kinds| == |structures|
    ensures structures != [] ==>
              exists k :: 0 <= k < |kinds| && kinds[k] == Primary
                && (forall i :: 0 <= i < |kinds| && i != k ==> kinds[i] == Supplemental)
                && (forall i :: 0 <= i < |kinds| ==> DistanceToMean(structures, k) <= DistanceToMean(structures, i))
                && (forall i :: 0 <= i < k ==> DistanceToMean(structures, k) < DistanceToMean(structures, i))
  {
    if structures == [] {
      return [];
    }
    var primary := 0;
    for i := 1 to |structures|
      invariant 0 <= primary < i
      invariant forall j :: 0 <= j < i ==> DistanceToMean(structures, primary) <= DistanceToMean(structures, j)
      invariant forall j :: 0 <= j < primary ==> DistanceToMean(structures, primary) < DistanceToMean(structures, j)
    {
      if DistanceToMean(structures, i) < DistanceToMean(structures, primary) {
        primary := i;
      }
    }
    kinds := seq(|structures|, i => Supplemental);
    kinds := kinds[primary := Primary];
  }

  function Bodies(): Structure -> real {
    (structure: Structure) => structure.body as real
  }

  /** The distance of a body from the mean of all bodies, times their number. */
  lemma DistanceIsFromMean(structures: seq<Structure>, i: nat)
    requires i < |structures|
    ensures var n, all := |structures| as real, Sum(Bodies(), structures);
            DistanceToMean(structures, i) as real
            == MaxR(structures[i].body as real * n - all, all - structures[i].body as real * n)
  {
    hide Sum, BodySum;
    BodySumIsSum(structures);
    RealTimes(structures[i].body, |structures|);
  }

  lemma RealTimes(a: int, b: int)
    ensures (a * b) as real == a as real * b as real
  {
  }

  lemma {:induction false} BodySumIsSum(structures: seq<Structure>)
    ensures BodySum(structures) as real == Sum(Bodies(), structures)
  {
    if structures != [] {
      BodySumIsSum(structures[..|structures| - 1]);
    }
  }
}
