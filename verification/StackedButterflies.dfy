/** Butterflies of different widths on one body, with any lots: they always fit. */
module StackedButterflies {
  import opened FittingButterflies
  import opened GreedyButterflies

  ghost predicate Stacked(own: seq<Pick>, body: int) {
    && (forall i :: 0 <= i < |own| ==> IsButterfly(own[i]) && own[i].body == body)
    && (forall i, j :: 0 <= i < j < |own| ==> own[i].lower != own[j].lower)
  }

  /** What the legs of such butterflies are: each wing belongs to one of them, and the body to all. */
  ghost predicate LegsAreStacked(own: seq<Pick>, body: int) {
    && Taken(own, body) <= 0
    && (forall p :: p in own ==>
          Taken(own, p.lower) == Taken(own, p.upper) == p.lots && Taken(own, body) <= -2 * p.lots)
    && (forall x :: x != body ==> Taken(own, x) == 0 || exists p :: p in own && IsWing(p, x))
  }

  lemma {:induction false} StackedLegs(own: seq<Pick>, body: int)
    requires Stacked(own, body)
    ensures LegsAreStacked(own, body)
  {
    hide IsButterfly, LegsAreStacked;
    if own == [] {
      NothingIsStacked(body);
    } else {
      var n := |own| - 1;
      StackedLegs(own[..n], body);
      assert own == own[..n] + [own[n]];
      TriplesAreApart(own, body);
      OneMoreStacked(own[..n], own[n], body);
    }
  }

  lemma NothingIsStacked(body: int)
    ensures LegsAreStacked([], body)
  {
  }

  lemma OneMoreStacked(before: seq<Pick>, last: Pick, body: int)
    requires LegsAreStacked(before, body)
    requires last.lots >= 1 && last.lower < body < last.upper && last.body == body
    requires forall p, x :: p in before && IsWing(p, x) ==> !IsWing(last, x) && x != body
    ensures LegsAreStacked(before + [last], body)
  {
    var own := before + [last];
    hide Taken;
    forall x
      ensures Taken(own, x) == Taken(before, x) - Moved(last, x)
    {
      TakenConcat(before, [last], x);
      TakenOne(last, x);
    }
    assert IsWing(last, last.lower) && IsWing(last, last.upper);
    assert last in own;
    forall p | p in before
      ensures Taken(own, p.lower) == Taken(own, p.upper) == p.lots && Taken(own, body) <= -2 * p.lots
    {
      assert IsWing(p, p.lower) && IsWing(p, p.upper);
    }
    forall x | x != body
      ensures Taken(own, x) == 0 || exists p :: p in own && IsWing(p, x)
    {
      if p :| p in before && IsWing(p, x) {
        assert p in own;
      }
    }
  }

  lemma TriplesAreApart(own: seq<Pick>, body: int)
    requires Stacked(own, body) && own != []
    ensures var last := own[|own| - 1];
            && last.lots >= 1 && last.lower < body < last.upper
            && forall p, x :: p in own[..|own| - 1] && IsWing(p, x) ==> !IsWing(last, x) && x != body
  {
    var n := |own| - 1;
    forall p | p in own[..n]
      ensures p.lower != own[n].lower && IsButterfly(p) && p.body == body
    {
      var i :| 0 <= i < n && own[..n][i] == p;
      assert own[i] == p;
    }
  }

  lemma {:induction false} PartIsStacked(own: seq<Pick>, body: int, f: Pick)
    requires Stacked(own, body)
    ensures Stacked(NotBefore(own, f), body)
  {
    hide KeyLess, IsButterfly;
    if own != [] {
      var n := |own| - 1;
      PartIsStacked(own[..n], body, f);
      var before := NotBefore(own[..n], f);
      NotBeforeHolds(own[..n], f);
      forall i | 0 <= i < |before|
        ensures before[i].lower != own[n].lower
      {
        assert before[i] in own[..n];
      }
    }
  }

  /** A triple that has room among butterflies on one body has the strikes and the lots of one of them. */
  lemma OnlyOwnHaveRoom(rest: seq<Pick>, body: int, f: Pick)
    requires Stacked(rest, body) && IsButterfly(f)
    ensures f in rest ==> f.lots == Room(rest, f)
    ensures f.lots == Room(rest, f) ==> f in rest
  {
    hide Taken;
    StackedLegs(rest, body);
    if f.lots == Room(rest, f) {
      assert f.body == body;
      var p :| p in rest && IsWing(p, f.lower);
      assert IsButterfly(p);
      assert p == f;
    }
  }

  lemma StackedButterfliesFit(own: seq<Pick>, body: int)
    requires Stacked(own, body)
    ensures Fits(own)
  {
    hide Taken, KeyLess, Room;
    DistinctAreOnce(own);
    forall f | IsButterfly(f)
      ensures FitsAt(own, f)
    {
      PartIsStacked(own, body, f);
      NotBeforeHolds(own, f);
      OnlyOwnHaveRoom(NotBefore(own, f), body, f);
      KeysAreOrdered(f, f, f);
    }
  }
}
