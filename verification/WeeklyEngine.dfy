/** The weekly backtest: it drives the machine bar by bar, finds out what was opened and closed by comparing
    layer ids before and after the bar, and keeps the books on the layer objects. */
module WeeklyEngine {
  import opened Rounding
  import opened Sets
  import opened Sums
  import opened WeeklyModels
  import opened WeeklyStep
  import opened WeeklyInvariants
  import opened WeeklyRuns
  import opened WeeklyMachine
  import opened WeeklyPricer
  import opened WeeklyLedger

  /** The simplified pricer, as the ledger sees it: marks use the cost recorded on the opening bar. */
  function PricerOf(cfg: Config): Pricer {
    Pricer((layer: Layer) => EntryDebit(cfg, layer), Friction(cfg),
           (layer: Layer, price: real, now: Stamp) => Mark(cfg, layer, EntryCost(cfg, layer), price, now))
  }

  // ---------- Sorted differences of id lists ----------

  function Interval(first: int, end: int): seq<int>
    requires first <= end
  {
    seq(end - first, i => first + i)
  }

  predicate HasId(layers: seq<Butterfly>, id: int) {
    exists k :: 0 <= k < |layers| && layers[k].shape.id == id
  }

  /** Insertion into a sorted list of distinct ids. */
  function Insert(ids: seq<int>, id: int): (r: seq<int>)
    requires Rising(ids)
    ensures Rising(r)
    ensures forall x :: Contains(r, x) <==> x == id || Contains(ids, x)
  {
    if ids == [] then
      assert [id][0] == id;
      [id]
    else
      var n := |ids| - 1;
      if ids[n] < id then
        assert forall x :: Contains(ids + [id], x) <==> x == id || Contains(ids, x) by { ContainsSnoc(ids, id); }
        ids + [id]
      else if ids[n] == id then ids
      else
        var front := Insert(ids[..n], id);
        assert ids == ids[..n] + [ids[n]];
        assert forall x :: Contains(front + [ids[n]], x) <==> x == ids[n] || Contains(front, x) by {
          ContainsSnoc(front, ids[n]);
        }
        assert forall x :: Contains(ids, x) <==> x == ids[n] || Contains(ids[..n], x) by {
          ContainsSnoc(ids[..n], ids[n]);
        }
        assert forall i :: 0 <= i < |front| ==> Contains(front, front[i]);
        front + [ids[n]]
  }

  /** Rising ids that are exactly the numbers of an interval are that interval in order. */
  lemma RisingIdsFillRange(ids: seq<int>, first: int, end: int)
    requires first <= end && Rising(ids)
    requires forall x :: Contains(ids, x) <==> first <= x < end
    ensures ids == Interval(first, end)
  {
    forall i | 0 <= i < |ids|
      ensures first <= ids[i] < end
    {
      assert Contains(ids, ids[i]);
    }
    var n := 0;
    while n < |ids|
      invariant 0 <= n <= |ids| && first + n <= end
      invariant forall i :: 0 <= i < n ==> ids[i] == first + i
    {
      assert n > 0 ==> ids[n - 1] < ids[n];
      assert first + n <= ids[n];
      assert Contains(ids, first + n);
      n := n + 1;
    }
    assert first + n < end ==> Contains(ids, first + n);
  }

  /** The ids on the first list that are not on the second, sorted. */
  method SortedDifference(a: seq<Butterfly>, b: seq<Butterfly>) returns (ids: seq<int>)
    ensures Rising(ids)
    ensures forall x :: Contains(ids, x) <==> HasId(a, x) && !HasId(b, x)
  {
    ids := [];
    for i := 0 to |a|
      invariant Rising(ids)
      invariant forall x :: Contains(ids, x) <==> HasId(a[..i], x) && !HasId(b, x)
    {
      assert forall x :: HasId(a[..i + 1], x) <==> x == a[i].shape.id || HasId(a[..i], x) by {
        HasIdSnoc(a, i);
      }
      if !HasId(b, a[i].shape.id) {
        ids := Insert(ids, a[i].shape.id);
      }
    }
    assert a[..|a|] == a;
  }

  lemma HasIdSnoc(a: seq<Butterfly>, i: nat)
    requires i < |a|
    ensures forall x :: HasId(a[..i + 1], x) <==> x == a[i].shape.id || HasId(a[..i], x)
  {
    forall x
      ensures HasId(a[..i + 1], x) <==> x == a[i].shape.id || HasId(a[..i], x)
    {
      if HasId(a[..i], x) {
        var k :| 0 <= k < i && a[..i][k].shape.id == x;
        assert a[..i + 1][k].shape.id == x;
      }
      if HasId(a[..i + 1], x) {
        var k :| 0 <= k < i + 1 && a[..i + 1][k].shape.id == x;
        if k < i {
          assert a[..i][k].shape.id == x;
        }
      }
      assert a[..i + 1][i] == a[i];
    }
  }

  // ---------- Books on the layer objects ----------

  /** The layer carries the cost that opening it took. */
  ghost predicate Funded(p: Pricer, b: Butterfly)
    reads b
  {
    b.entryDebit == p.debit(b.shape) && b.entryFriction == p.friction && b.entryCost == p.Cost(b.shape)
  }

  predicate Touches(a: Action, first: int, end: int) {
    a.layer.Some? && first <= a.layer.value.id < end
  }

  /** The records with the given money put on the one that names the layer. */
  function WithCash(actions: seq<Action>, id: int, cash: Cash): (r: seq<Action>)
    ensures |r| == |actions|
    ensures forall i :: 0 <= i < |r| ==>
              r[i] == if Touches(actions[i], id, id + 1) then actions[i].(cash := cash) else actions[i]
  {
    seq(|actions|, i requires 0 <= i < |actions| =>
          if Touches(actions[i], id, id + 1) then actions[i].(cash := cash) else actions[i])
  }

  method FindLayer(layers: seq<Butterfly>, id: int) returns (b: Butterfly)
    requires HasId(layers, id)
    ensures b in layers && b.shape.id == id
  {
    var k := 0;
    while layers[k].shape.id != id
      invariant 0 <= k < |layers|
      invariant forall j :: 0 <= j < k ==> layers[j].shape.id != id
      decreases |layers| - k
    {
      k := k + 1;
    }
    b := layers[k];
  }

  method Fund(p: Pricer, layer: Butterfly) returns (cash: Cash)
    modifies layer
    ensures Funded(p, layer) && layer.lastMark == layer.entryCost && cash == p.PaidCash(layer.shape)
  {
    layer.entryDebit := p.debit(layer.shape);
    layer.entryFriction := p.friction;
    layer.entryCost := layer.entryDebit + layer.entryFriction;
    layer.lastMark := layer.entryCost;
    cash := Paid(layer.entryCost, layer.entryDebit, layer.entryFriction);
  }

  /** Charge the opened layers and write what was paid on their records. */
  method BookOpened(p: Pricer, layers: seq<Butterfly>, ids: seq<int>, actions: seq<Action>,
                    ghost first: int, ghost from: int)
    returns (r: seq<Action>)
    requires NumberedFrom(Shapes(layers), first)
    requires first <= from <= first + |layers| && ids == Interval(from, first + |layers|)
    requires forall i :: 0 <= i < |actions| && Touches(actions[i], from, first + |layers|) ==>
               actions[i].layer.value == layers[actions[i].layer.value.id - first].shape
    modifies layers
    ensures forall k :: 0 <= k < |layers| && from <= first + k ==> Funded(p, layers[k])
    ensures forall k :: 0 <= k < |layers| && first + k < from ==> unchanged(layers[k])
    ensures |r| == |actions|
    ensures forall i :: 0 <= i < |r| ==>
              r[i] == if Touches(actions[i], from, first + |layers|)
                      then actions[i].(cash := p.PaidCash(actions[i].layer.value)) else actions[i]
  {
    r := actions;
    for n := 0 to |ids|
      invariant |r| == |actions|
      invariant forall k :: 0 <= k < |layers| && from <= first + k < from + n ==> Funded(p, layers[k])
      invariant forall k :: 0 <= k < |layers| && first + k < from ==> unchanged(layers[k])
      invariant forall i :: 0 <= i < |r| ==>
                  r[i] == if Touches(actions[i], from, from + n)
                          then actions[i].(cash := p.PaidCash(actions[i].layer.value)) else actions[i]
    {
      assert layers[from + n - first].shape.id == ids[n];
      var layer := FindLayer(layers, ids[n]);
      var cash := Fund(p, layer);
      r := WithCash(r, ids[n], cash);
    }
  }

  /** A funded layer is marked as the ledger's pricer marks it. */
  lemma FundedMark(cfg: Config, b: Butterfly, price: real, now: Stamp)
    requires Funded(PricerOf(cfg), b)
    ensures Mark(cfg, b.shape, b.entryCost, price, now) == PricerOf(cfg).mark(b.shape, price, now)
  {
    hide Profile, DriftUnits, TimeProgress, Friction;
    var p := PricerOf(cfg);
    assert p.debit(b.shape) == EntryDebit(cfg, b.shape);
    assert b.entryCost == EntryCost(cfg, b.shape);
  }

  // ---------- What the id comparison finds ----------

  /** After a bar the first active id has moved past the closed layers, and the next id past the opened ones. */
  lemma BarMovesIds(cfg: Config, ctx: Context, bar: Bar)
    requires Inv(cfg, ctx)
    ensures var o := Step(cfg, ctx, bar);
            && FirstActiveId(ctx) <= FirstActiveId(o.ctx) <= ctx.nextId <= o.ctx.nextId
            && NumberedFrom(ctx.active, FirstActiveId(ctx))
            && NumberedFrom(o.ctx.active, FirstActiveId(o.ctx))
            && LayersOf(false, o.actions) == ctx.active[..FirstActiveId(o.ctx) - FirstActiveId(ctx)]
  {
    hide Step, LayersOf;
    StepKeepsInv(cfg, ctx, bar);
    StepConserves(cfg, ctx, bar);
  }

  lemma NumberedHasIds(layers: seq<Butterfly>, first: int)
    requires NumberedFrom(Shapes(layers), first)
    ensures forall x :: HasId(layers, x) <==> first <= x < first + |layers|
  {
    forall x | first <= x < first + |layers|
      ensures HasId(layers, x)
    {
      assert Shapes(layers)[x - first] == layers[x - first].shape;
    }
    forall k | 0 <= k < |layers|
      ensures layers[k].shape.id == first + k
    {
      assert Shapes(layers)[k] == layers[k].shape;
    }
  }

  /** Every record names the layer that carries its id: an opened one after the bar, a closed one before it. */
  lemma RecordsNameLayers(cfg: Config, ctx: Context, bar: Bar, i: nat)
    requires Inv(cfg, ctx)
    requires i < |Step(cfg, ctx, bar).actions| && Step(cfg, ctx, bar).actions[i].layer.Some?
    ensures var o := Step(cfg, ctx, bar);
            var a := o.actions[i];
            && (IsOpening(a.kind) ==>
                  && ctx.nextId <= a.layer.value.id < o.ctx.nextId
                  && FirstActiveId(o.ctx) <= ctx.nextId
                  && a.layer.value == o.ctx.active[a.layer.value.id - FirstActiveId(o.ctx)])
            && (IsClosing(a.kind) ==>
                  && FirstActiveId(ctx) <= a.layer.value.id < FirstActiveId(o.ctx) <= ctx.nextId
                  && a.layer.value == ctx.active[a.layer.value.id - FirstActiveId(ctx)])
  {
    hide Step, LayersOf;
    var o := Step(cfg, ctx, bar);
    var a := o.actions[i];
    StepConserves(cfg, ctx, bar);
    BarMovesIds(cfg, ctx, bar);
    var bought, closed := LayersOf(true, o.actions), LayersOf(false, o.actions);
    if IsOpening(a.kind) {
      LayerIsListed(true, o.actions, i);
      var k :| 0 <= k < |bought| && bought[k] == a.layer.value;
      assert (ctx.active + bought)[|ctx.active| + k] == a.layer.value;
      assert (closed + o.ctx.active)[|ctx.active| + k] == o.ctx.active[|ctx.active| + k - |closed|];
    }
    if IsClosing(a.kind) {
      LayerIsListed(false, o.actions, i);
      var k :| 0 <= k < |closed| && closed[k] == a.layer.value;
      assert ctx.active[k] == closed[k];
    }
  }

  ghost predicate NamesLayer(a: Action, before: Context, after: Context)
    requires FirstActiveId(before) <= FirstActiveId(after) <= before.nextId <= after.nextId
  {
    && (a.layer.Some? && IsOpening(a.kind) ==>
          && before.nextId <= a.layer.value.id < after.nextId
          && a.layer.value == after.active[a.layer.value.id - FirstActiveId(after)])
    && (a.layer.Some? && IsClosing(a.kind) ==>
          && FirstActiveId(before) <= a.layer.value.id < FirstActiveId(after)
          && a.layer.value == before.active[a.layer.value.id - FirstActiveId(before)])
  }

  lemma RecordsNameAllLayers(cfg: Config, ctx: Context, bar: Bar)
    requires Inv(cfg, ctx)
    ensures var o := Step(cfg, ctx, bar);
            && FirstActiveId(ctx) <= FirstActiveId(o.ctx) <= ctx.nextId <= o.ctx.nextId
            && forall i :: 0 <= i < |o.actions| ==> NamesLayer(o.actions[i], ctx, o.ctx)
  {
    hide Step, LayersOf;
    BarMovesIds(cfg, ctx, bar);
    var o := Step(cfg, ctx, bar);
    forall i | 0 <= i < |o.actions|
      ensures NamesLayer(o.actions[i], ctx, o.ctx)
    {
      if o.actions[i].layer.Some? {
        RecordsNameLayers(cfg, ctx, bar, i);
      }
    }
  }

  /** Enriching by the ids opened and then by the ids closed enriches every record once, and rightly. */
  lemma EachRecordOnce(p: Pricer, bar: Bar, raw: seq<Action>, charged: seq<Action>, booked: seq<Action>,
                       oldest: int, first: int, split: int, next: int)
    requires oldest <= first <= split <= next && AllOfBar(bar, raw)
    requires forall i :: 0 <= i < |raw| ==>
               && (IsOpening(raw[i].kind) ==> Touches(raw[i], split, next))
               && (IsClosing(raw[i].kind) ==> Touches(raw[i], oldest, first))
    requires |charged| == |raw| && |booked| == |raw|
    requires forall i :: 0 <= i < |raw| ==>
               charged[i] == if Touches(raw[i], split, next) then raw[i].(cash := p.PaidCash(raw[i].layer.value))
                             else raw[i]
    requires forall i :: 0 <= i < |raw| ==>
               booked[i] == if Touches(charged[i], oldest, first)
                            then charged[i].(cash := p.BookedCash(charged[i].layer.value, bar.price, bar.stamp))
                            else charged[i]
    ensures booked == EnrichAll(p, raw)
  {
    forall i | 0 <= i < |raw|
      ensures booked[i] == Enriched(p, raw[i])
    {
      assert OfBar(bar, raw[i]);
    }
  }

  lemma RunOfNothing(p: Pricer, cfg: Config)
    ensures Run(cfg, []) == Outcome(INITIAL_CONTEXT, [], []) && EnrichAll(p, []) == []
    ensures RealizedOn(p, []) == GrossRealizedOn(p, []) == TotalAfter(p, cfg, []) == 0.0
    ensures Curve(p, cfg, []) == []
  {
  }

  /** How the results of a run grow by one bar. */
  lemma RunOfOneMore(p: Pricer, cfg: Config, bars: seq<Bar>, bar: Bar)
    ensures var r, all := Run(cfg, bars), bars + [bar];
            var step := Step(cfg, r.ctx, bar);
            var realized, gross := RealizedOn(p, r.actions) + RealizedOn(p, step.actions),
                                   GrossRealizedOn(p, r.actions) + GrossRealizedOn(p, step.actions);
            var point := PointAt(p, step.ctx, bar, realized, gross, TotalAfter(p, cfg, bars));
            && Run(cfg, all) == Then(r, step)
            && EnrichAll(p, r.actions + step.actions) == EnrichAll(p, r.actions) + EnrichAll(p, step.actions)
            && RealizedOn(p, r.actions + step.actions) == realized
            && GrossRealizedOn(p, r.actions + step.actions) == gross
            && TotalAfter(p, cfg, all) == point.total
            && Curve(p, cfg, all) == Curve(p, cfg, bars) + [point]
  {
    hide Run, Step, RealizedOn, GrossRealizedOn, Unrealized, GrossUnrealized, Deployment, Occupied, Enriched;
    var r := Run(cfg, bars);
    assert (bars + [bar])[..|bars|] == bars;
    RunSnoc(cfg, bars, bar);
    RealizedConcat(p, r.actions, Step(cfg, r.ctx, bar).actions);
  }

  lemma GainsOf(p: Pricer, layer: Layer, price: real, now: Stamp)
    ensures GrossGain(p, price, now)(layer) == p.mark(layer, price, now) - p.debit(layer)
    ensures CloseGain(p, price, now)(layer) == p.CloseValue(layer, price, now) - p.Cost(layer)
  {
  }

  class Engine {
    const cfg: Config
    const machine: Machine

    constructor (cfg: Config)
      ensures this.cfg == cfg && machine.cfg == cfg && fresh(machine)
      ensures machine.Ctx() == INITIAL_CONTEXT && machine.active == [] && machine.realizedPnl == 0.0
    {
      this.cfg := cfg;
      machine := new Machine(cfg);
    }

    method CloseOne(layer: Butterfly, price: real, now: Stamp) returns (cash: Cash)
      requires Funded(PricerOf(cfg), layer)
      modifies layer`exitValue, layer`closeFriction, machine`realizedPnl
      ensures cash == PricerOf(cfg).BookedCash(layer.shape, price, now)
      ensures machine.realizedPnl == old(machine.realizedPnl) + CloseGain(PricerOf(cfg), price, now)(layer.shape)
      ensures layer.exitValue == PricerOf(cfg).CloseValue(layer.shape, price, now)
    {
      hide Mark, EntryDebit;
      FundedMark(cfg, layer, price, now);
      var grossClose := Mark(cfg, layer.shape, layer.entryCost, price, now);
      layer.closeFriction := Friction(cfg);
      layer.exitValue := MaxR(0.0, grossClose - layer.closeFriction);
      var realized := layer.exitValue - layer.entryCost;
      machine.realizedPnl := machine.realizedPnl + realized;
      cash := Booked(layer.exitValue, grossClose, realized, grossClose - layer.entryDebit, layer.closeFriction);
    }

    /** Book the closed layers, oldest first, and write what was booked on their records. */
    method BookClosed(layers: seq<Butterfly>, ids: seq<int>, bar: Bar, actions: seq<Action>, gross: real,
                      ghost first: int, ghost end: int)
      returns (r: seq<Action>, grossRealized: real)
      requires NumberedFrom(Shapes(layers), first)
      requires first <= end <= first + |layers| && ids == Interval(first, end)
      requires forall b <- layers :: Funded(PricerOf(cfg), b)
      requires forall i :: 0 <= i < |actions| && Touches(actions[i], first, end) ==>
                 actions[i].layer.value == layers[actions[i].layer.value.id - first].shape
      modifies layers, machine`realizedPnl
      ensures forall b <- layers :: Funded(PricerOf(cfg), b)
      ensures var p := PricerOf(cfg);
              && machine.realizedPnl == old(machine.realizedPnl)
                                        + Sum(CloseGain(p, bar.price, bar.stamp), Shapes(layers)[..end - first])
              && grossRealized == gross + Sum(GrossGain(p, bar.price, bar.stamp), Shapes(layers)[..end - first])
              && |r| == |actions|
              && forall i :: 0 <= i < |r| ==>
                   r[i] == if Touches(actions[i], first, end)
                           then actions[i].(cash := p.BookedCash(actions[i].layer.value, bar.price, bar.stamp))
                           else actions[i]
    {
      hide PricerOf, Sum, CloseGain, GrossGain;
      ghost var p := PricerOf(cfg);
      r, grossRealized := actions, gross;
      SumOfNothing(CloseGain(p, bar.price, bar.stamp));
      SumOfNothing(GrossGain(p, bar.price, bar.stamp));
      assert Shapes(layers)[..0] == [];
      for n := 0 to |ids|
        invariant |r| == |actions|
        invariant forall b <- layers :: Funded(p, b)
        invariant machine.realizedPnl == old(machine.realizedPnl)
                                         + Sum(CloseGain(p, bar.price, bar.stamp), Shapes(layers)[..n])
        invariant grossRealized == gross + Sum(GrossGain(p, bar.price, bar.stamp), Shapes(layers)[..n])
        invariant forall i :: 0 <= i < |r| ==>
                    r[i] == if Touches(actions[i], first, first + n)
                            then actions[i].(cash := p.BookedCash(actions[i].layer.value, bar.price, bar.stamp))
                            else actions[i]
      {
        assert layers[n].shape.id == ids[n];
        var layer := FindLayer(layers, ids[n]);
        var cash := CloseOne(layer, bar.price, bar.stamp);
        grossRealized := grossRealized + cash.grossRealized;
        GainsOf(p, layer.shape, bar.price, bar.stamp);
        assert layer.shape == Shapes(layers)[n];
        SumSnoc(CloseGain(p, bar.price, bar.stamp), Shapes(layers)[..n], layer.shape);
        SumSnoc(GrossGain(p, bar.price, bar.stamp), Shapes(layers)[..n], layer.shape);
        assert Shapes(layers)[..n + 1] == Shapes(layers)[..n] + [layer.shape];
        r := WithCash(r, ids[n], cash);
      }
    }

    /** Mark every open layer and add up what is not realized yet. */
    method MarkOpen(bar: Bar) returns (unrealized: real, grossUnrealized: real, deployment: real)
      requires forall b <- machine.active :: Funded(PricerOf(cfg), b)
      modifies machine.active
      ensures forall b <- machine.active :: Funded(PricerOf(cfg), b)
      ensures var p := PricerOf(cfg);
              && unrealized == Unrealized(p, Shapes(machine.active), bar.price, bar.stamp)
              && grossUnrealized == GrossUnrealized(p, Shapes(machine.active), bar.price, bar.stamp)
              && deployment == Deployment(p, Shapes(machine.active))
    {
      hide Mark, EntryDebit, Friction;
      var p := PricerOf(cfg);
      var layers := machine.active;
      unrealized, grossUnrealized, deployment := 0.0, 0.0, 0.0;
      for n := 0 to |layers|
        invariant forall b <- layers :: Funded(p, b)
        invariant unrealized == Unrealized(p, Shapes(layers)[..n], bar.price, bar.stamp)
        invariant grossUnrealized == GrossUnrealized(p, Shapes(layers)[..n], bar.price, bar.stamp)
        invariant deployment == Deployment(p, Shapes(layers)[..n])
      {
        var layer := layers[n];
        FundedMark(cfg, layer, bar.price, bar.stamp);
        layer.lastMark := Mark(cfg, layer.shape, layer.entryCost, bar.price, bar.stamp);
        unrealized := unrealized + (layer.lastMark - layer.entryCost);
        grossUnrealized := grossUnrealized + (layer.lastMark - layer.entryDebit);
        deployment := deployment + layer.entryCost;
        SumSnoc(OpenGain(p, bar.price, bar.stamp), Shapes(layers)[..n], layer.shape);
        SumSnoc(GrossGain(p, bar.price, bar.stamp), Shapes(layers)[..n], layer.shape);
        SumSnoc(CostOf(p), Shapes(layers)[..n], layer.shape);
        assert Shapes(layers)[..n + 1] == Shapes(layers)[..n] + [layer.shape];
      }
      assert Shapes(layers)[..|layers|] == Shapes(layers);
    }

    /** The ids found by comparing the layers before and after a bar: the new ones and the oldest ones. */
    static method CompareIds(prior: seq<Butterfly>, current: seq<Butterfly>,
                             ghost oldest: int, ghost split: int, ghost first: int, ghost next: int)
      returns (openedIds: seq<int>, closedIds: seq<int>)
      requires oldest <= first <= split <= next
      requires NumberedFrom(Shapes(prior), oldest) && oldest + |prior| == split
      requires NumberedFrom(Shapes(current), first) && first + |current| == next
      ensures openedIds == Interval(split, next) && closedIds == Interval(oldest, first)
    {
      NumberedHasIds(prior, oldest);
      NumberedHasIds(current, first);
      openedIds := SortedDifference(current, prior);
      closedIds := SortedDifference(prior, current);
      RisingIdsFillRange(openedIds, split, next);
      RisingIdsFillRange(closedIds, oldest, first);
    }

    /** Book what the id comparison finds, given that every record names its layer. */
    method BookMoves(prior: seq<Butterfly>, bar: Bar, raw: seq<Action>, gross: real, ghost ctx: Context)
      returns (actions: seq<Action>, grossRealized: real)
      requires Shapes(prior) == ctx.active && AllOfBar(bar, raw)
      requires FirstActiveId(ctx) <= FirstActiveId(machine.Ctx()) <= ctx.nextId <= machine.nextId
      requires NumberedFrom(ctx.active, FirstActiveId(ctx))
      requires NumberedFrom(Shapes(machine.active), FirstActiveId(machine.Ctx()))
      requires forall i :: 0 <= i < |raw| ==> NamesLayer(raw[i], ctx, machine.Ctx())
      requires forall b <- prior :: Funded(PricerOf(cfg), b)
      requires forall b <- machine.active :: b in prior || b.shape.id >= ctx.nextId
      modifies machine`realizedPnl, machine.active, prior
      ensures var p, closed := PricerOf(cfg), ctx.active[..FirstActiveId(machine.Ctx()) - FirstActiveId(ctx)];
              && actions == EnrichAll(p, raw)
              && machine.realizedPnl == old(machine.realizedPnl) + Sum(CloseGain(p, bar.price, bar.stamp), closed)
              && grossRealized == gross + Sum(GrossGain(p, bar.price, bar.stamp), closed)
      ensures forall b <- machine.active :: Funded(PricerOf(cfg), b)
    {
      hide PricerOf, Sum, CloseGain, GrossGain, Enriched;
      var p := PricerOf(cfg);
      var current := machine.active;
      ghost var first, next, oldest := FirstActiveId(machine.Ctx()), machine.nextId, FirstActiveId(ctx);
      var openedIds, closedIds := CompareIds(prior, current, oldest, ctx.nextId, first, next);
      actions := BookOpened(p, current, openedIds, raw, first, ctx.nextId);
      forall b | b in prior
        ensures Funded(p, b)
      {
        assert b in current ==> exists j :: 0 <= j < |current| && current[j] == b && first + j < ctx.nextId;
      }
      assert forall b <- current :: Funded(p, b);
      ghost var charged := actions;
      actions, grossRealized := BookClosed(prior, closedIds, bar, actions, gross, oldest, first);
      EachRecordOnce(p, bar, raw, charged, actions, oldest, first, ctx.nextId, next);
    }

    /** What the id comparison finds are exactly the layers that the records of the bar open and close, so
        every record gets its own money and the books agree with the log. */
    method KeepBooks(prior: seq<Butterfly>, bar: Bar, raw: seq<Action>, gross: real, ghost ctx: Context)
      returns (actions: seq<Action>, grossRealized: real)
      requires Inv(cfg, ctx) && Shapes(prior) == ctx.active
      requires machine.Ctx() == Step(cfg, ctx, bar).ctx && raw == Step(cfg, ctx, bar).actions
      requires forall b <- prior :: Funded(PricerOf(cfg), b)
      requires forall b <- machine.active :: b in prior || b.shape.id >= ctx.nextId
      modifies machine`realizedPnl, machine.active, prior
      ensures var p := PricerOf(cfg);
              && actions == EnrichAll(p, raw)
              && machine.realizedPnl == old(machine.realizedPnl) + RealizedOn(p, raw)
              && grossRealized == gross + GrossRealizedOn(p, raw)
      ensures forall b <- machine.active :: Funded(PricerOf(cfg), b)
    {
      hide PricerOf, Step, LayersOf, Sum, CloseGain, GrossGain, RealizedOn, GrossRealizedOn, Enriched, NamesLayer;
      BarMovesIds(cfg, ctx, bar);
      StepRecordsAreOfBar(cfg, ctx, bar);
      RecordsNameAllLayers(cfg, ctx, bar);
      RealizedOnBar(PricerOf(cfg), raw, bar.price, bar.stamp);
      actions, grossRealized := BookMoves(prior, bar, raw, gross, ctx);
    }

    /** One bar of the backtest: the machine moves, the books follow, and an equity point is drawn. */
    method ProcessBar(bar: Bar, gross: real, prevTotal: real)
      returns (transitions: seq<Transition>, actions: seq<Action>, grossRealized: real, point: EquityPoint)
      requires machine.cfg == cfg && Inv(cfg, machine.Ctx())
      requires forall b <- machine.active :: Funded(PricerOf(cfg), b)
      modifies machine, machine.active
      ensures var p, o := PricerOf(cfg), Step(cfg, old(machine.Ctx()), bar);
              && machine.Ctx() == o.ctx
              && transitions == o.transitions
              && actions == EnrichAll(p, o.actions)
              && machine.realizedPnl == old(machine.realizedPnl) + RealizedOn(p, o.actions)
              && grossRealized == gross + GrossRealizedOn(p, o.actions)
              && point == PointAt(p, o.ctx, bar, machine.realizedPnl, grossRealized, prevTotal)
      ensures forall b <- machine.active :: Funded(PricerOf(cfg), b)
      ensures forall b <- machine.active :: b in old(machine.active) || fresh(b)
    {
      hide Mark, EntryDebit, Friction, Step, Sum, Occupied;
      ghost var ctx := machine.Ctx();
      var prior := machine.active;
      var raw;
      transitions, raw := machine.ProcessBar(bar);
      actions, grossRealized := KeepBooks(prior, bar, raw, gross, ctx);
      var unrealized, grossUnrealized, deployment := MarkOpen(bar);
      var total := machine.realizedPnl + unrealized;
      point := EquityPoint(bar.stamp, bar.symbol, bar.stamp.Week(), bar.price, bar.regime.regime, machine.state,
                           total - prevTotal, machine.realizedPnl, unrealized, grossRealized, grossUnrealized,
                           grossRealized + grossUnrealized, total, deployment,
                           Occupied(Shapes(machine.active), bar.price), |machine.active|);
    }

    /** The whole backtest of a new engine. Its results are those of the run: the transitions, the log with the
        money of every record, and the equity curve in which realized P&L is the sum over the closing records. */
    method RunBacktest(bars: seq<Bar>)
      returns (transitions: seq<Transition>, actions: seq<Action>, curve: seq<EquityPoint>)
      requires machine.cfg == cfg && machine.Ctx() == INITIAL_CONTEXT
      requires machine.active == [] && machine.realizedPnl == 0.0
      modifies machine
      ensures var p, r := PricerOf(cfg), Run(cfg, bars);
              && machine.Ctx() == r.ctx
              && transitions == r.transitions
              && actions == EnrichAll(p, r.actions)
              && machine.realizedPnl == RealizedOn(p, r.actions)
              && curve == Curve(p, cfg, bars)
    {
      hide Mark, EntryDebit, Friction, Step, Run, RealizedOn, GrossRealizedOn, TotalAfter, Curve, PointAt;
      ghost var p := PricerOf(cfg);
      RunOfNothing(p, cfg);
      transitions, actions, curve := [], [], [];
      var prevTotal, gross := 0.0, 0.0;
      for n := 0 to |bars|
        invariant machine.Ctx() == Run(cfg, bars[..n]).ctx
        invariant transitions == Run(cfg, bars[..n]).transitions
        invariant actions == EnrichAll(p, Run(cfg, bars[..n]).actions)
        invariant machine.realizedPnl == RealizedOn(p, Run(cfg, bars[..n]).actions)
        invariant gross == GrossRealizedOn(p, Run(cfg, bars[..n]).actions)
        invariant prevTotal == TotalAfter(p, cfg, bars[..n])
        invariant curve == Curve(p, cfg, bars[..n])
        invariant forall b <- machine.active :: Funded(p, b)
        invariant forall b <- machine.active :: fresh(b)
      {
        RunKeepsInv(cfg, bars[..n]);
        assert bars[..n + 1] == bars[..n] + [bars[n]];
        RunOfOneMore(p, cfg, bars[..n], bars[n]);
        assert forall i :: 0 <= i < |machine.active| ==> machine.active[i] in machine.active;
        var more, records, point;
        more, records, gross, point := ProcessBar(bars[n], gross, prevTotal);
        transitions, actions, curve := transitions + more, actions + records, curve + [point];
        prevTotal := point.total;
      }
      assert bars[..|bars|] == bars;
    }
  }
}
