/** The ledger laws for the pricer that the engine uses. */
module WeeklyEquity {
  import opened WeeklyModels
  import opened WeeklyStep
  import opened WeeklyInvariants
  import opened WeeklyRuns
  import opened WeeklyPricer
  import opened WeeklyLedger
  import opened WeeklyEngine

  ghost predicate HaveWidth(layers: seq<Layer>, width: real) {
    forall i :: 0 <= i < |layers| ==> layers[i].width == width
  }

  lemma SplitWidths(all: seq<Layer>, a: seq<Layer>, b: seq<Layer>, width: real)
    requires HaveWidth(all, width) && all == a + b
    ensures HaveWidth(a, width) && HaveWidth(b, width)
  {
    assert forall i :: 0 <= i < |a| ==> all[i] == a[i];
    assert forall i :: 0 <= i < |b| ==> all[|a| + i] == b[i];
  }

  lemma JoinWidths(a: seq<Layer>, b: seq<Layer>, width: real)
    requires HaveWidth(a, width) && HaveWidth(b, width)
    ensures HaveWidth(a + b, width)
  {
  }

  lemma StepWidths(cfg: Config, ctx: Context, bar: Bar)
    requires Inv(cfg, ctx) && HaveWidth(ctx.active, cfg.butterflyWidth)
    ensures HaveWidth(Step(cfg, ctx, bar).ctx.active, cfg.butterflyWidth)
    ensures HaveWidth(LayersOf(true, Step(cfg, ctx, bar).actions), cfg.butterflyWidth)
  {
    hide Step, LayersOf;
    var step, w := Step(cfg, ctx, bar), cfg.butterflyWidth;
    var bought, closed := LayersOf(true, step.actions), LayersOf(false, step.actions);
    LayersAfterStep(cfg, ctx, bar);
    StepConserves(cfg, ctx, bar);
    SplitWidths(ctx.active, closed, ctx.active[|closed|..], w);
    JoinWidths(closed, step.ctx.active, w);
    SplitWidths(closed + step.ctx.active, ctx.active, bought, w);
  }

  /** Every layer a run opens has the configured width. */
  lemma {:induction false} WidthsAreConfigured(cfg: Config, bars: seq<Bar>)
    ensures HaveWidth(LayersOf(true, Run(cfg, bars).actions), cfg.butterflyWidth)
    ensures HaveWidth(Run(cfg, bars).ctx.active, cfg.butterflyWidth)
  {
    hide Step;
    if bars != [] {
      var before, bar, w := bars[..|bars| - 1], bars[|bars| - 1], cfg.butterflyWidth;
      var r := Run(cfg, before);
      WidthsAreConfigured(cfg, before);
      RunKeepsInv(cfg, before);
      StepWidths(cfg, r.ctx, bar);
      var step := Step(cfg, r.ctx, bar);
      LayersOfConcat(true, r.actions, step.actions);
      JoinWidths(LayersOf(true, r.actions), LayersOf(true, step.actions), w);
    }
  }

  lemma RunMarksAreNeverNegative(cfg: Config, bars: seq<Bar>)
    requires cfg.butterflyWidth * cfg.floorPct >= 0.0
    ensures NeverNegative(PricerOf(cfg), LayersOf(true, Run(cfg, bars).actions))
  {
    hide Run, LayersOf, Mark;
    WidthsAreConfigured(cfg, bars);
    var layers := LayersOf(true, Run(cfg, bars).actions);
    forall i, price, now: Stamp | 0 <= i < |layers|
      ensures PricerOf(cfg).mark(layers[i], price, now) >= 0.0
    {
      MarkIsBounded(cfg, layers[i], EntryCost(cfg, layers[i]), price, now);
    }
  }

  /** With a floor and a friction that are not negative, on every bar of every run net equity is at most gross
      equity, and at least minus the entry costs of all the layers opened so far. */
  lemma EquityIsBracketed(cfg: Config, bars: seq<Bar>)
    requires bars != [] && cfg.butterflyWidth * cfg.floorPct >= 0.0 && Friction(cfg) >= 0.0
    ensures var p := PricerOf(cfg);
            -Deployment(p, LayersOf(true, Run(cfg, bars).actions))
            <= PointOf(p, cfg, bars).total <= PointOf(p, cfg, bars).grossTotal
  {
    hide Run, LayersOf, Mark;
    RunMarksAreNeverNegative(cfg, bars);
    NetNeverExceedsGross(PricerOf(cfg), cfg, bars);
    EquityFloor(PricerOf(cfg), cfg, bars);
  }
}
