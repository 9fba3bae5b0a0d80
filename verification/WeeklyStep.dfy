/** What one bar does to the weekly machine, as a function of the context and the bar. */
module WeeklyStep {
  import opened Calendar
  import opened Options
  import opened Rounding
  import opened WeeklyModels

  predicate WithinEntryWindow(cfg: Config, stamp: Stamp) {
    && cfg.entryStartWeekday <= stamp.Weekday() <= cfg.entryEndWeekday
    && cfg.tradingStart <= stamp.clock <= cfg.tradingEnd
  }

  function ElapsedDays(since: Stamp, now: Stamp): int {
    Max(0, (now.Instant() - since.Instant()) / DAY_SECONDS)
  }

  function RemainingDte(cfg: Config, deployedAt: Stamp, now: Stamp): int {
    Max(0, cfg.defaultDte - ElapsedDays(deployedAt, now))
  }

  /** The exit that is due at `now`, if one is; earlier tests win. */
  function DueExit(cfg: Config, deployedAt: Option<Stamp>, now: Stamp): Option<ActionKind> {
    match deployedAt
    case None => None
    case Some(since) =>
      if RemainingDte(cfg, since, now) <= cfg.minRemainingDte then Some(ExitDte)
      else if BusinessDays(since.day, now.day) >= cfg.maxHoldDays then Some(ExitHold)
      else if now.Weekday() >= cfg.forcedExitWeekday && now.clock >= cfg.forcedExitTime then Some(ExitWeek)
      else None
  }

  /** Drift from the deployed center beyond the tolerance. */
  predicate ShouldAdjust(cfg: Config, center: Option<real>, price: real) {
    center.Some? && Abs(price - center.value) > cfg.centerTolerance
  }

  function MakeLayer(cfg: Config, kind: LayerKind, center: real, stamp: Stamp, week: int, id: int): Layer {
    var body := RoundStrike(center, cfg.centerRounding);
    Layer(id, kind, week, body, cfg.butterflyWidth, body - cfg.butterflyWidth, body, body + cfg.butterflyWidth,
          stamp, cfg.defaultDte)
  }

  function InitialCount(cfg: Config): nat {
    Max(0, Min(3, cfg.maxActive))
  }

  function InitialLayer(cfg: Config, center: real, stamp: Stamp, week: int, firstId: int, i: nat): Layer
    requires i < 3
  {
    var shifted := [center - cfg.centerSpacing, center, center + cfg.centerSpacing][i];
    MakeLayer(cfg, Initial, shifted, stamp, week, firstId + i)
  }

  /** The weekly corridor: up to three butterflies at the center and one spacing to each side. */
  function InitialLayers(cfg: Config, center: real, stamp: Stamp, week: int, firstId: int): (layers: seq<Layer>)
    ensures |layers| == InitialCount(cfg)
    ensures forall i :: 0 <= i < |layers| ==> layers[i].id == firstId + i && layers[i].week == week
  {
    seq(InitialCount(cfg), i requires 0 <= i < 3 => InitialLayer(cfg, center, stamp, week, firstId, i))
  }

  /** Bodies are compared after rounding to four decimals. */
  function BodyKey(body: real): int {
    RoundHalfEven(body * 10000.0)
  }

  predicate BodyTaken(body: real, layers: seq<Layer>) {
    exists i :: 0 <= i < |layers| && BodyKey(layers[i].body) == BodyKey(body)
  }

  function Record(bar: Bar, kind: ActionKind, state: State, center: Option<real>, layer: Option<Layer>): Action {
    Action(bar.stamp, bar.symbol, bar.stamp.Week(), kind, state, bar.price, center, layer, NoCash)
  }

  /** One record for each layer, in order. */
  function Records(
      bar: Bar, kind: ActionKind, state: State, center: Option<real>, layers: seq<Layer>): (rs: seq<Action>)
    ensures |rs| == |layers|
    ensures forall i :: 0 <= i < |rs| ==> rs[i] == Record(bar, kind, state, center, Some(layers[i]))
  {
    seq(|layers|, i requires 0 <= i < |layers| => Record(bar, kind, state, center, Some(layers[i])))
  }

  datatype Outcome = Outcome(ctx: Context, transitions: seq<Transition>, actions: seq<Action>)

  function Moved(ctx: Context, bar: Bar, to: State): Context {
    ctx.(state := to, lastChange := Some(bar.stamp))
  }

  function Move(ctx: Context, bar: Bar, to: State): Transition {
    Transition(bar.stamp, bar.symbol, bar.stamp.Week(), ctx.state, to, bar.regime.regime, bar.price,
               ctx.center, |ctx.active|, ctx.adjustments)
  }

  /** Change the state and close every layer. */
  function CloseAll(ctx: Context, bar: Bar, to: State, kind: ActionKind): Outcome {
    Outcome(Moved(ctx, bar, to).(active := []), [Move(ctx, bar, to)], Records(bar, kind, to, ctx.center, ctx.active))
  }

  function ResetForWeek(ctx: Context, week: int): Context {
    Context(Idle, Some(week), None, None, None, [], ctx.nextId, None, 0, None, false)
  }

  /** A bar of another week first closes what is open and then forgets the old week. */
  function RollWeek(ctx: Context, bar: Bar): Outcome {
    var week := bar.stamp.Week();
    var keyed := if ctx.week == None then ctx.(week := Some(week)) else ctx;
    var closed :=
      if keyed.active != [] && keyed.week != Some(week) then CloseAll(keyed, bar, Exited, ExitWeek)
      else Outcome(keyed, [], []);
    if closed.ctx.active == [] && closed.ctx.week != Some(week)
    then closed.(ctx := ResetForWeek(closed.ctx, week))
    else closed
  }

  function Deploy(cfg: Config, ctx: Context, bar: Bar, center: Center): Outcome {
    var week := bar.stamp.Week();
    var layers := InitialLayers(cfg, center.price, bar.stamp, week, ctx.nextId);
    if layers == [] then Outcome(ctx, [], [])
    else
      var grown := ctx.(active := ctx.active + layers,
                         nextId := ctx.nextId + |layers|,
                         center := Some(center.price),
                         toleranceLow := Some(center.toleranceLow),
                         toleranceHigh := Some(center.toleranceHigh),
                         deployedAt := Some(bar.stamp),
                         week := Some(week),
                         adjustments := 0,
                         eventSkipped := false);
      Outcome(Moved(grown, bar, Active), [Move(grown, bar, Active)],
              Records(bar, DeployInitial, Active, Some(center.price), layers))
  }

  /** An idle machine skips a blocked week once, or deploys, or waits. */
  function Enter(cfg: Config, ctx: Context, bar: Bar): Outcome {
    if bar.regime.eventBlocked && WithinEntryWindow(cfg, bar.stamp) then
      if ctx.eventSkipped then Outcome(ctx, [], [])
      else
        var center := if bar.center.Some? then Some(bar.center.value.price) else None;
        Outcome(ctx.(eventSkipped := true), [], [Record(bar, SkipEventWeek, ctx.state, center, None)])
    else if bar.center.Some? && bar.regime.IsRange() && WithinEntryWindow(cfg, bar.stamp) then
      Deploy(cfg, ctx, bar, bar.center.value)
    else Outcome(ctx, [], [])
  }

  function Adjust(cfg: Config, ctx: Context, bar: Bar): Outcome {
    var layer := MakeLayer(cfg, Adjustment, bar.price, bar.stamp, bar.stamp.Week(), ctx.nextId);
    if BodyTaken(layer.body, ctx.active) then Outcome(ctx, [], [])
    else
      var grown := ctx.(active := ctx.active + [layer],
                         nextId := ctx.nextId + 1,
                         adjustments := ctx.adjustments + 1);
      Outcome(Moved(grown, bar, Adjusted), [Move(grown, bar, Adjusted)],
              Records(bar, AddAdjustment, Adjusted, ctx.center, [layer]))
  }

  /** An open corridor is aborted by a trend, closed by a due exit, or adjusted after drift. */
  function Manage(cfg: Config, ctx: Context, bar: Bar): Outcome {
    var due := DueExit(cfg, ctx.deployedAt, bar.stamp);
    if bar.regime.IsTrend() then CloseAll(ctx, bar, Aborted, Abort)
    else if due.Some? then CloseAll(ctx, bar, Exited, due.value)
    else if && ShouldAdjust(cfg, ctx.center, bar.price)
            && ctx.adjustments < cfg.maxAdjustments
            && |ctx.active| < cfg.maxActive then Adjust(cfg, ctx, bar)
    else Outcome(ctx, [], [])
  }

  function Then(first: Outcome, second: Outcome): Outcome {
    Outcome(second.ctx, first.transitions + second.transitions, first.actions + second.actions)
  }

  function Step(cfg: Config, ctx: Context, bar: Bar): Outcome {
    var rolled := RollWeek(ctx, bar);
    if rolled.ctx.state == Idle then Then(rolled, Enter(cfg, rolled.ctx, bar))
    else if (rolled.ctx.state == Active || rolled.ctx.state == Adjusted) && rolled.ctx.active != []
    then Then(rolled, Manage(cfg, rolled.ctx, bar))
    else rolled
  }
}
