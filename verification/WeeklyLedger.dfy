/** The books of the weekly backtest, read off the action log in exact reals, and the laws they obey
    whatever the pricer says. */
module WeeklyLedger {
  import opened Options
  import opened Rounding
  import opened WeeklyModels
  import opened WeeklyStep
  import opened WeeklyRuns
  import opened Sums

  /** What the ledger asks of a pricer: the debit paid for a layer, the friction of opening or closing one,
      and the value of an open layer at a price and time. */
  datatype Pricer = Pricer(debit: Layer -> real, friction: real, mark: (Layer, real, Stamp) -> real) {
    function Cost(layer: Layer): real {
      debit(layer) + friction
    }

    /** What closing brings after friction, but never less than nothing. */
    function CloseValue(layer: Layer, price: real, now: Stamp): real {
      MaxR(0.0, mark(layer, price, now) - friction)
    }

    function PaidCash(layer: Layer): Cash {
      Paid(Cost(layer), debit(layer), friction)
    }

    function BookedCash(layer: Layer, price: real, now: Stamp): Cash {
      var gross := mark(layer, price, now);
      var net := CloseValue(layer, price, now);
      Booked(net, gross, net - Cost(layer), gross - debit(layer), friction)
    }
  }

  /** A record with its money: what was paid on an opening record, what was booked on a closing one. */
  function Enriched(p: Pricer, a: Action): Action {
    if a.layer == None then a
    else if IsOpening(a.kind) then a.(cash := p.PaidCash(a.layer.value))
    else if IsClosing(a.kind) then a.(cash := p.BookedCash(a.layer.value, a.price, a.stamp))
    else a
  }

  function EnrichAll(p: Pricer, log: seq<Action>): (rs: seq<Action>)
    ensures |rs| == |log|
    ensures forall i :: 0 <= i < |rs| ==> rs[i] == Enriched(p, log[i])
  {
    seq(|log|, i requires 0 <= i < |log| => Enriched(p, log[i]))
  }

  // ---------- Money of one layer, and of one record ----------

  function CostOf(p: Pricer): Layer -> real {
    layer => p.Cost(layer)
  }

  function OpenGain(p: Pricer, price: real, now: Stamp): Layer -> real {
    layer => p.mark(layer, price, now) - p.Cost(layer)
  }

  function GrossGain(p: Pricer, price: real, now: Stamp): Layer -> real {
    layer => p.mark(layer, price, now) - p.debit(layer)
  }

  function CloseGain(p: Pricer, price: real, now: Stamp): Layer -> real {
    layer => p.CloseValue(layer, price, now) - p.Cost(layer)
  }

  /** A record counts what its layer gained at the price and time of the record. */
  function RecordGain(p: Pricer): Action -> real {
    a => if Closes(a) then p.CloseValue(a.layer.value, a.price, a.stamp) - p.Cost(a.layer.value) else 0.0
  }

  function GrossRecordGain(p: Pricer): Action -> real {
    a => if Closes(a) then p.mark(a.layer.value, a.price, a.stamp) - p.debit(a.layer.value) else 0.0
  }

  /** Friction lost on a closing record: a layer worth less than the friction loses only its worth. */
  function FrictionLost(p: Pricer): Action -> real {
    a => if Closes(a) then MinR(p.mark(a.layer.value, a.price, a.stamp), p.friction) else 0.0
  }

  /** Realized P&L: the sum over the closing records of a log. */
  function RealizedOn(p: Pricer, log: seq<Action>): real {
    Sum(RecordGain(p), log)
  }

  function GrossRealizedOn(p: Pricer, log: seq<Action>): real {
    Sum(GrossRecordGain(p), log)
  }

  function CloseFrictionOn(p: Pricer, log: seq<Action>): real {
    Sum(FrictionLost(p), log)
  }

  function Unrealized(p: Pricer, layers: seq<Layer>, price: real, now: Stamp): real {
    Sum(OpenGain(p, price, now), layers)
  }

  function GrossUnrealized(p: Pricer, layers: seq<Layer>, price: real, now: Stamp): real {
    Sum(GrossGain(p, price, now), layers)
  }

  function Deployment(p: Pricer, layers: seq<Layer>): real {
    Sum(CostOf(p), layers)
  }

  /** A sum over the closing records is a sum over the layers they close. */
  lemma {:induction false} SumOverClosed(f: Action -> real, g: Layer -> real, log: seq<Action>)
    requires forall i :: 0 <= i < |log| ==> f(log[i]) == if Closes(log[i]) then g(log[i].layer.value) else 0.0
    ensures Sum(f, log) == Sum(g, LayersOf(false, log))
  {
    if log != [] {
      var n := |log| - 1;
      SumOverClosed(f, g, log[..n]);
      var before := LayersOf(false, log[..n]);
      if Closes(log[n]) {
        SumSnoc(g, before, log[n].layer.value);
        assert LayersOf(false, log) == before + [log[n].layer.value];
      } else {
        assert LayersOf(false, log) == before;
      }
    }
  }

  lemma RealizedConcat(p: Pricer, a: seq<Action>, b: seq<Action>)
    ensures RealizedOn(p, a + b) == RealizedOn(p, a) + RealizedOn(p, b)
    ensures GrossRealizedOn(p, a + b) == GrossRealizedOn(p, a) + GrossRealizedOn(p, b)
  {
    SumConcat(RecordGain(p), a, b);
    SumConcat(GrossRecordGain(p), a, b);
  }

  /** On records of one bar, what the log realizes is what closing those layers at the bar realizes. */
  lemma RealizedOnBar(p: Pricer, log: seq<Action>, price: real, now: Stamp)
    requires forall i :: 0 <= i < |log| ==> log[i].price == price && log[i].stamp == now
    ensures RealizedOn(p, log) == Sum(CloseGain(p, price, now), LayersOf(false, log))
    ensures GrossRealizedOn(p, log) == Sum(GrossGain(p, price, now), LayersOf(false, log))
  {
    SumOverClosed(RecordGain(p), CloseGain(p, price, now), log);
    SumOverClosed(GrossRecordGain(p), GrossGain(p, price, now), log);
  }

  // ---------- Equity ----------

  function LowestStrike(layers: seq<Layer>): real
    requires layers != []
  {
    if |layers| == 1 then layers[0].lower
    else MinR(LowestStrike(layers[..|layers| - 1]), layers[|layers| - 1].lower)
  }

  function HighestStrike(layers: seq<Layer>): real
    requires layers != []
  {
    if |layers| == 1 then layers[0].upper
    else MaxR(HighestStrike(layers[..|layers| - 1]), layers[|layers| - 1].upper)
  }

  predicate Occupied(layers: seq<Layer>, price: real) {
    layers != [] && LowestStrike(layers) <= price <= HighestStrike(layers)
  }

  datatype EquityPoint = EquityPoint(
    stamp: Stamp, symbol: string, week: int, price: real, regime: Regime, state: State,
    barPnl: real, realized: real, unrealized: real, grossRealized: real, grossUnrealized: real,
    grossTotal: real, total: real, deployment: real, occupied: bool, activeLayers: int)

  function PointAt(
      p: Pricer, ctx: Context, bar: Bar, realized: real, grossRealized: real, prevTotal: real): EquityPoint
  {
    var unrealized := Unrealized(p, ctx.active, bar.price, bar.stamp);
    var grossUnrealized := GrossUnrealized(p, ctx.active, bar.price, bar.stamp);
    EquityPoint(bar.stamp, bar.symbol, bar.stamp.Week(), bar.price, bar.regime.regime, ctx.state,
                realized + unrealized - prevTotal, realized, unrealized, grossRealized, grossUnrealized,
                grossRealized + grossUnrealized, realized + unrealized, Deployment(p, ctx.active),
                Occupied(ctx.active, bar.price), |ctx.active|)
  }

  /** Total equity after the bars: what the closing records realized, and the open layers at the last price. */
  function TotalAfter(p: Pricer, cfg: Config, bars: seq<Bar>): real {
    if bars == [] then 0.0
    else
      var bar := bars[|bars| - 1];
      RealizedOn(p, Run(cfg, bars).actions) + Unrealized(p, Run(cfg, bars).ctx.active, bar.price, bar.stamp)
  }

  /** The equity point of the last bar of a run. */
  function PointOf(p: Pricer, cfg: Config, bars: seq<Bar>): EquityPoint
    requires bars != []
  {
    var r := Run(cfg, bars);
    PointAt(p, r.ctx, bars[|bars| - 1], RealizedOn(p, r.actions), GrossRealizedOn(p, r.actions),
            TotalAfter(p, cfg, bars[..|bars| - 1]))
  }

  function Curve(p: Pricer, cfg: Config, bars: seq<Bar>): (points: seq<EquityPoint>)
    ensures |points| == |bars|
  {
    if bars == [] then [] else Curve(p, cfg, bars[..|bars| - 1]) + [PointOf(p, cfg, bars)]
  }

  lemma {:induction false} LowestIsLowest(layers: seq<Layer>, price: real)
    requires layers != []
    ensures LowestStrike(layers) <= price <==> exists i :: 0 <= i < |layers| && layers[i].lower <= price
  {
    var n := |layers| - 1;
    if n > 0 {
      LowestIsLowest(layers[..n], price);
      if i :| 0 <= i < n && layers[..n][i].lower <= price {
        assert layers[i].lower <= price;
      }
      if i :| 0 <= i < |layers| && layers[i].lower <= price {
        assert i < n ==> layers[..n][i].lower <= price;
      }
    }
  }

  lemma {:induction false} HighestIsHighest(layers: seq<Layer>, price: real)
    requires layers != []
    ensures price <= HighestStrike(layers) <==> exists i :: 0 <= i < |layers| && price <= layers[i].upper
  {
    var n := |layers| - 1;
    if n > 0 {
      HighestIsHighest(layers[..n], price);
      if i :| 0 <= i < n && price <= layers[..n][i].upper {
        assert price <= layers[i].upper;
      }
      if i :| 0 <= i < |layers| && price <= layers[i].upper {
        assert i < n ==> price <= layers[..n][i].upper;
      }
    }
  }

  lemma OccupiedMeans(layers: seq<Layer>, price: real)
    ensures Occupied(layers, price) <==>
            && (exists i :: 0 <= i < |layers| && layers[i].lower <= price)
            && (exists i :: 0 <= i < |layers| && price <= layers[i].upper)
  {
    hide LowestStrike, HighestStrike;
    if layers != [] {
      LowestIsLowest(layers, price);
      HighestIsHighest(layers, price);
    }
  }

  /** A bar counts as occupied exactly when its price is not below all open layers and not above all of them. */
  lemma OccupiedIsInside(p: Pricer, cfg: Config, bars: seq<Bar>)
    requires bars != []
    ensures var active, price := Run(cfg, bars).ctx.active, bars[|bars| - 1].price;
            PointOf(p, cfg, bars).occupied <==>
            && (exists i :: 0 <= i < |active| && active[i].lower <= price)
            && (exists i :: 0 <= i < |active| && price <= active[i].upper)
  {
    var r, bar := Run(cfg, bars), bars[|bars| - 1];
    PointIsOccupied(p, cfg, bars);
    OccupiedMeans(r.ctx.active, bar.price);
  }

  lemma PointIsOccupied(p: Pricer, cfg: Config, bars: seq<Bar>)
    requires bars != []
    ensures PointOf(p, cfg, bars).occupied == Occupied(Run(cfg, bars).ctx.active, bars[|bars| - 1].price)
  {
  }

  function MarkOf(p: Pricer, price: real, now: Stamp): Layer -> real {
    layer => p.mark(layer, price, now)
  }

  /** Every point tells the bar, the state, the realized sums of the log, and the open layers: what they are worth less
      what they took is their unrealized gain, and the gross one leaves out the friction of each. */
  lemma PointTells(p: Pricer, cfg: Config, bars: seq<Bar>)
    requires bars != []
    ensures var r, bar, point := Run(cfg, bars), bars[|bars| - 1], PointOf(p, cfg, bars);
            && point.stamp == bar.stamp && point.symbol == bar.symbol && point.week == bar.stamp.Week()
            && point.price == bar.price && point.regime == bar.regime.regime
            && point.state == r.ctx.state && point.activeLayers == |r.ctx.active|
            && point.realized == RealizedOn(p, r.actions) && point.grossRealized == GrossRealizedOn(p, r.actions)
            && point.unrealized + point.deployment == Sum(MarkOf(p, bar.price, bar.stamp), r.ctx.active)
            && point.grossUnrealized == point.unrealized + Repeated(p.friction, point.activeLayers)
            && point.total == point.realized + point.unrealized
            && point.grossTotal == point.grossRealized + point.grossUnrealized
    ensures PointOf(p, cfg, bars).barPnl
            == PointOf(p, cfg, bars).total - (if |bars| == 1 then 0.0 else PointOf(p, cfg, bars[..|bars| - 1]).total)
  {
    hide Run, RealizedOn, GrossRealizedOn, Occupied;
    var active, bar := Run(cfg, bars).ctx.active, bars[|bars| - 1];
    SumOfSum(OpenGain(p, bar.price, bar.stamp), CostOf(p), MarkOf(p, bar.price, bar.stamp), active);
    GrossLessNetOfOpen(p, active, bar.price, bar.stamp);
  }

  // ---------- Laws of every run ----------

  function FrictionOf(p: Pricer): Layer -> real {
    layer => p.friction
  }

  lemma GrossLessNetOfOpen(p: Pricer, layers: seq<Layer>, price: real, now: Stamp)
    ensures GrossUnrealized(p, layers, price, now)
            == Unrealized(p, layers, price, now) + Repeated(p.friction, |layers|)
  {
    SumOfSum(OpenGain(p, price, now), FrictionOf(p), GrossGain(p, price, now), layers);
    SumOfConstant(FrictionOf(p), p.friction, layers);
  }

  function RecordFriction(p: Pricer): Action -> real {
    a => if Closes(a) then p.friction else 0.0
  }

  function RecordLoss(p: Pricer): Action -> real {
    a => if Closes(a) then p.friction + MinR(p.mark(a.layer.value, a.price, a.stamp), p.friction) else 0.0
  }

  lemma GrossLessNetOfClosed(p: Pricer, log: seq<Action>)
    ensures GrossRealizedOn(p, log)
            == RealizedOn(p, log) + Repeated(p.friction, |LayersOf(false, log)|) + CloseFrictionOn(p, log)
  {
    forall i | 0 <= i < |log|
      ensures GrossRecordGain(p)(log[i]) == RecordGain(p)(log[i]) + RecordLoss(p)(log[i])
    {
      RecordGap(p, log[i]);
    }
    SumOfSum(RecordGain(p), RecordLoss(p), GrossRecordGain(p), log);
    LossOfClosed(p, log);
  }

  lemma LossOfClosed(p: Pricer, log: seq<Action>)
    ensures Sum(RecordLoss(p), log) == Repeated(p.friction, |LayersOf(false, log)|) + CloseFrictionOn(p, log)
  {
    hide Repeated, LayersOf;
    forall i | 0 <= i < |log|
      ensures RecordLoss(p)(log[i]) == RecordFriction(p)(log[i]) + FrictionLost(p)(log[i])
      ensures RecordFriction(p)(log[i]) == if Closes(log[i]) then FrictionOf(p)(log[i].layer.value) else 0.0
    {
      hide Sum;
    }
    SumOfSum(RecordFriction(p), FrictionLost(p), RecordLoss(p), log);
    SumOverClosed(RecordFriction(p), FrictionOf(p), log);
    SumOfConstant(FrictionOf(p), p.friction, LayersOf(false, log));
  }

  lemma RecordGap(p: Pricer, a: Action)
    ensures GrossRecordGain(p)(a) == RecordGain(p)(a) + RecordLoss(p)(a)
  {
    if Closes(a) {
      ClampGap(p.mark(a.layer.value, a.price, a.stamp), p.friction);
    }
  }

  /** Clamping at zero gives back whatever friction the gross value cannot pay. */
  lemma ClampGap(gross: real, friction: real)
    ensures gross - MaxR(0.0, gross - friction) == MinR(gross, friction)
  {
  }

  lemma FrictionGap(p: Pricer, r: Outcome, bar: Bar, prevTotal: real)
    requires LayersOf(true, r.actions) == LayersOf(false, r.actions) + r.ctx.active
    ensures var point :=
              PointAt(p, r.ctx, bar, RealizedOn(p, r.actions), GrossRealizedOn(p, r.actions), prevTotal);
            point.grossTotal - point.total
            == Repeated(p.friction, |LayersOf(true, r.actions)|) + CloseFrictionOn(p, r.actions)
  {
    hide Repeated, LayersOf, Sum;
    GrossLessNetOfOpen(p, r.ctx.active, bar.price, bar.stamp);
    GrossLessNetOfClosed(p, r.actions);
    RepeatedAdd(p.friction, |LayersOf(false, r.actions)|, |r.ctx.active|);
  }

  /** Gross equity is ahead of net equity by the friction of every layer ever opened, and by the friction
      actually lost on every layer closed. */
  lemma FrictionLaw(p: Pricer, cfg: Config, bars: seq<Bar>)
    requires bars != []
    ensures var log := Run(cfg, bars).actions;
            PointOf(p, cfg, bars).grossTotal - PointOf(p, cfg, bars).total
            == Repeated(p.friction, |LayersOf(true, log)|) + CloseFrictionOn(p, log)
  {
    hide Run, LayersOf, Sum;
    LogOpensAndClosesInOrder(cfg, bars);
    var r := Run(cfg, bars);
    FrictionGap(p, r, bars[|bars| - 1], TotalAfter(p, cfg, bars[..|bars| - 1]));
  }

  /** The pricer never marks these layers below zero. */
  ghost predicate NeverNegative(p: Pricer, layers: seq<Layer>) {
    forall i, price, now :: 0 <= i < |layers| ==> p.mark(layers[i], price, now) >= 0.0
  }

  lemma SplitNeverNegative(p: Pricer, all: seq<Layer>, a: seq<Layer>, b: seq<Layer>)
    requires NeverNegative(p, all) && all == a + b
    ensures NeverNegative(p, a) && NeverNegative(p, b)
  {
    assert forall i :: 0 <= i < |a| ==> all[i] == a[i];
    assert forall i :: 0 <= i < |b| ==> all[|a| + i] == b[i];
  }

  lemma CloseFrictionIsNonNegative(p: Pricer, log: seq<Action>)
    requires NeverNegative(p, LayersOf(false, log)) && p.friction >= 0.0
    ensures CloseFrictionOn(p, log) >= 0.0
  {
    var nothing := (a: Action) => 0.0;
    forall i | 0 <= i < |log|
      ensures FrictionLost(p)(log[i]) >= 0.0
    {
      if Closes(log[i]) {
        LayerIsListed(false, log, i);
      }
    }
    SumIsMonotone(nothing, FrictionLost(p), log);
    SumOfConstant(nothing, 0.0, log);
  }

  /** With no negative friction and no negative marks, net equity is never above gross equity. */
  lemma NetNeverExceedsGross(p: Pricer, cfg: Config, bars: seq<Bar>)
    requires bars != [] && p.friction >= 0.0
    requires NeverNegative(p, LayersOf(true, Run(cfg, bars).actions))
    ensures PointOf(p, cfg, bars).total <= PointOf(p, cfg, bars).grossTotal
  {
    hide Run, LayersOf, Sum;
    FrictionLaw(p, cfg, bars);
    LogOpensAndClosesInOrder(cfg, bars);
    FrictionIsPaid(p, Run(cfg, bars));
  }

  lemma FrictionIsPaid(p: Pricer, r: Outcome)
    requires LayersOf(true, r.actions) == LayersOf(false, r.actions) + r.ctx.active
    requires NeverNegative(p, LayersOf(true, r.actions)) && p.friction >= 0.0
    ensures Repeated(p.friction, |LayersOf(true, r.actions)|) + CloseFrictionOn(p, r.actions) >= 0.0
  {
    SplitNeverNegative(p, LayersOf(true, r.actions), LayersOf(false, r.actions), r.ctx.active);
    CloseFrictionIsNonNegative(p, r.actions);
    RepeatedIsNonNegative(p.friction, |LayersOf(true, r.actions)|);
  }

  function NegatedCostOf(p: Pricer): Layer -> real {
    layer => -p.Cost(layer)
  }

  lemma NegatedDeployment(p: Pricer, layers: seq<Layer>)
    ensures Sum(NegatedCostOf(p), layers) == -Deployment(p, layers)
  {
    var zero := (layer: Layer) => 0.0;
    SumOfSum(NegatedCostOf(p), CostOf(p), zero, layers);
    SumOfConstant(zero, 0.0, layers);
  }

  lemma RealizedAboveCost(p: Pricer, log: seq<Action>)
    ensures RealizedOn(p, log) >= -Deployment(p, LayersOf(false, log))
  {
    var recordCost := (a: Action) => if Closes(a) then -p.Cost(a.layer.value) else 0.0;
    SumIsMonotone(recordCost, RecordGain(p), log);
    SumOverClosed(recordCost, NegatedCostOf(p), log);
    NegatedDeployment(p, LayersOf(false, log));
  }

  lemma UnrealizedAboveCost(p: Pricer, layers: seq<Layer>, price: real, now: Stamp)
    requires NeverNegative(p, layers)
    ensures Unrealized(p, layers, price, now) >= -Deployment(p, layers)
  {
    SumIsMonotone(NegatedCostOf(p), OpenGain(p, price, now), layers);
    NegatedDeployment(p, layers);
  }

  /** No run can lose more than the entry costs of all the layers it ever opened. */
  lemma EquityFloor(p: Pricer, cfg: Config, bars: seq<Bar>)
    requires NeverNegative(p, LayersOf(true, Run(cfg, bars).actions))
    ensures TotalAfter(p, cfg, bars) >= -Deployment(p, LayersOf(true, Run(cfg, bars).actions))
  {
    if bars != [] {
      var r, bar := Run(cfg, bars), bars[|bars| - 1];
      LogOpensAndClosesInOrder(cfg, bars);
      SplitNeverNegative(p, LayersOf(true, r.actions), LayersOf(false, r.actions), r.ctx.active);
      RealizedAboveCost(p, r.actions);
      UnrealizedAboveCost(p, r.ctx.active, bar.price, bar.stamp);
      SumConcat(CostOf(p), LayersOf(false, r.actions), r.ctx.active);
    }
  }

  /** When the corridor is not open, total equity is what was realized. */
  lemma FlatEquityIsRealized(p: Pricer, cfg: Config, bars: seq<Bar>)
    requires bars != [] && PointOf(p, cfg, bars).state != Active && PointOf(p, cfg, bars).state != Adjusted
    ensures PointOf(p, cfg, bars).total == RealizedOn(p, Run(cfg, bars).actions)
    ensures PointOf(p, cfg, bars).activeLayers == 0
  {
    RunKeepsInv(cfg, bars);
    assert Run(cfg, bars).ctx.active == [];
  }
}
