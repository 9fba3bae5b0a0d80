/** Butterflies that may share wings, but have bodies of their own that are no wings: for these a simpler condition
    decides whether they fit. */
module SeparateButterflies {
  import opened FittingButterflies
  import opened GreedyButterflies
  import opened Rounding
  import opened StrikeBook

  ghost predicate BodiesApart(own: seq<Pick>) {
    forall i, j :: 0 <= i < j < |own| ==> own[i].body != own[j].body
  }

  ghost predicate Separate(own: seq<Pick>) {
    && (forall i :: 0 <= i < |own| ==> IsButterfly(own[i]))
    && BodiesApart(own)
    && (forall i, j :: 0 <= i < |own| && 0 <= j < |own| ==> own[i].body != own[j].lower && own[i].body != own[j].upper)
  }

  /** When all butterflies that come before it are gone, the legs of `f` are still there. */
  ghost predicate StillThere(own: seq<Pick>, f: Pick) {
    var rest := NotBefore(own, f);
    Taken(rest, f.lower) > 0 && Taken(rest, f.upper) > 0 && Taken(rest, f.body) <= -2
  }

  /** No triple of strikes that is none of the butterflies gets its turn: the earlier butterflies use up one of its
      strikes. */
  ghost predicate Clear(b: Book, own: seq<Pick>) {
    forall f :: IsCandidate(b, f) && f !in own ==> !StillThere(own, f)
  }

  // ---------- Signs ----------

  /** The strike is the body of none of them. */
  ghost predicate IsNoBody(own: seq<Pick>, x: int) {
    forall i :: 0 <= i < |own| ==> own[i].body != x
  }

  lemma {:induction false} WingsAreLong(own: seq<Pick>, f: Pick, x: int)
    requires (forall i :: 0 <= i < |own| ==> IsButterfly(own[i])) && IsNoBody(own, x)
    ensures 0 <= Taken(NotBefore(own, f), x) <= Taken(own, x)
    ensures forall k :: 0 <= k < |own| && (own[k].lower == x || own[k].upper == x) ==> own[k].lots <= Taken(own, x)
  {
    hide KeyLess;
    if own != [] {
      var n := |own| - 1;
      WingsAreLong(own[..n], f, x);
      var before := NotBefore(own[..n], f);
      assert (before + [own[n]])[..|before|] == before && before + [] == before;
      forall k | 0 <= k < |own| && (own[k].lower == x || own[k].upper == x)
        ensures own[k].lots <= Taken(own, x)
      {
        if k < n {
          assert own[..n][k] == own[k];
        }
      }
    }
  }

  lemma {:induction false} BodiesAreShort(own: seq<Pick>, k: nat)
    requires Separate(own) && k < |own|
    ensures Taken(own, own[k].body) == -2 * own[k].lots
  {
    var n, x := |own| - 1, own[k].body;
    if k < n {
      assert own[..n][k] == own[k];
      BodiesAreShort(own[..n], k);
    } else {
      NothingAt(own[..n], x);
    }
  }

  lemma {:induction false} NothingAt(own: seq<Pick>, x: int)
    requires forall i :: 0 <= i < |own| ==> own[i].lower != x && own[i].body != x && own[i].upper != x
    ensures Taken(own, x) == 0
  {
    if own != [] {
      NothingAt(own[..|own| - 1], x);
    }
  }

  /** The candidates among the butterflies themselves: each of them, with all its lots. */
  lemma OwnIsCandidate(b: Book, own: seq<Pick>, k: nat)
    requires Makes(b, own) && Separate(own) && k < |own|
    ensures IsCandidate(b, own[k])
  {
    hide Qty, Taken;
    var p := own[k];
    assert IsButterfly(p);
    BodiesAreShort(own, k);
    WingsAreLong(own, p, p.lower);
    WingsAreLong(own, p, p.upper);
    assert Qty(b, p.body) == -2 * p.lots;
    assert Qty(b, p.lower) >= p.lots && Qty(b, p.upper) >= p.lots;
  }

  lemma {:induction false} BodiesStayShort(own: seq<Pick>, f: Pick, x: int)
    requires forall i :: 0 <= i < |own| ==> own[i].lots >= 1 && own[i].lower != x && own[i].upper != x
    ensures Taken(own, x) <= Taken(NotBefore(own, f), x) <= 0
  {
    hide KeyLess;
    if own != [] {
      var n := |own| - 1;
      BodiesStayShort(own[..n], f, x);
      var before := NotBefore(own[..n], f);
      assert (before + [own[n]])[..|before|] == before && before + [] == before;
    }
  }

  /** What is still there of a strike without the earlier butterflies is there with them, with the same sign. */
  lemma MoreWithAll(own: seq<Pick>, f: Pick, x: int)
    requires Separate(own)
    ensures var part, all := Taken(NotBefore(own, f), x), Taken(own, x);
            0 <= part <= all || all <= part <= 0
  {
    hide Taken, NotBefore;
    if IsNoBody(own, x) {
      WingsAreLong(own, f, x);
    } else {
      BodiesStayShort(own, f, x);
    }
  }

  // ---------- Fitting ----------

  /** The triple with the lots the book allows. */
  function Refit(b: Book, f: Pick): Pick {
    f.(lots := Min(Min(Qty(b, f.lower), Qty(b, f.upper)), AbsI(Qty(b, f.body)) / 2))
  }

  lemma SameTriple(f: Pick, g: Pick, own: seq<Pick>)
    requires f.lower == g.lower && f.body == g.body && f.upper == g.upper
    ensures NotBefore(own, f) == NotBefore(own, g)
  {
    if own != [] {
      SameTriple(f, g, own[..|own| - 1]);
    }
  }

  lemma PartIsSeparate(own: seq<Pick>, f: Pick)
    requires Separate(own)
    ensures Separate(NotBefore(own, f))
  {
    hide NotBefore, KeyLess, IsButterfly;
    var part := NotBefore(own, f);
    NotBeforeHolds(own, f);
    BodiesStayApart(own, f);
    assert forall p :: p in own ==> IsButterfly(p);
    assert forall p, q :: p in own && q in own ==> p.body != q.lower && p.body != q.upper;
    assert forall i :: 0 <= i < |part| ==> part[i] in own;
  }

  lemma {:induction false} BodiesStayApart(own: seq<Pick>, f: Pick)
    requires BodiesApart(own)
    ensures BodiesApart(NotBefore(own, f))
  {
    hide KeyLess;
    if own != [] {
      var n := |own| - 1;
      var before := NotBefore(own[..n], f);
      BodiesStayApart(own[..n], f);
      NotBeforeHolds(own[..n], f);
      forall i | 0 <= i < |before|
        ensures before[i].body != own[n].body
      {
        assert before[i] in own[..n];
        var k :| 0 <= k < n && own[..n][k] == before[i];
        assert own[k].body != own[n].body;
      }
    }
  }

  /** Separate butterflies have room for just the lots they have. */
  lemma OwnHasRoom(own: seq<Pick>, p: Pick)
    requires Separate(own) && p in own
    ensures p.lots == Room(NotBefore(own, p), p)
  {
    hide NotBefore, KeyLess, Separate, Room;
    var rest := NotBefore(own, p);
    PartIsSeparate(own, p);
    NotBeforeHolds(own, p);
    KeysAreOrdered(p, p, p);
    var k :| 0 <= k < |rest| && rest[k] == p;
    HasRoomAt(rest, k);
  }

  lemma HasRoomAt(rest: seq<Pick>, k: nat)
    requires Separate(rest) && k < |rest|
    ensures rest[k].lots == Room(rest, rest[k])
  {
    hide Taken, KeyLess, NotBefore;
    var p := rest[k];
    BodiesAreShort(rest, k);
    WingsAreLong(rest, p, p.lower);
    WingsAreLong(rest, p, p.upper);
    assert IsButterfly(p);
  }

  lemma ForeignHasRoom(b: Book, own: seq<Pick>, f: Pick)
    requires Makes(b, own) && Separate(own) && IsButterfly(f) && f !in own && f.lots == Room(NotBefore(own, f), f)
    ensures !Clear(b, own)
  {
    hide Taken, KeyLess, Qty, Separate;
    var g := Refit(b, f);
    MoreWithAll(own, f, f.lower);
    MoreWithAll(own, f, f.body);
    MoreWithAll(own, f, f.upper);
    SameTriple(f, g, own);
    if g in own {
      OwnHasRoom(own, g);
    }
    assert IsCandidate(b, g) && StillThere(own, g);
  }

  lemma ForeignFits(b: Book, own: seq<Pick>, f: Pick)
    requires Makes(b, own) && Separate(own) && IsCandidate(b, f) && f !in own && StillThere(own, f)
    ensures !Fits(own)
  {
    hide Taken, KeyLess, Qty, Separate, Once;
    var g := f.(lots := Room(NotBefore(own, f), f));
    SameTriple(f, g, own);
    if g in own {
      var k :| 0 <= k < |own| && own[k] == g;
      OwnIsCandidate(b, own, k);
    }
    assert IsButterfly(g) && !FitsAt(own, g);
  }

  /** Separate butterflies fit if and only if their book is clear. */
  lemma FitsIffClear(b: Book, own: seq<Pick>)
    requires Makes(b, own) && Separate(own)
    ensures Fits(own) <==> Clear(b, own)
  {
    hide Taken, KeyLess, Qty, Room, StillThere, IsCandidate, IsButterfly;
    DistinctAreOnce(own);
    if Clear(b, own) {
      forall f | IsButterfly(f)
        ensures FitsAt(own, f)
      {
        if f in own {
          OwnHasRoom(own, f);
        } else if f.lots == Room(NotBefore(own, f), f) {
          ForeignHasRoom(b, own, f);
        }
      }
    }
    if Fits(own) {
      forall f | IsCandidate(b, f) && f !in own
        ensures !StillThere(own, f)
      {
        if StillThere(own, f) {
          ForeignFits(b, own, f);
        }
      }
    }
  }
}
