/** What every step of the weekly machine keeps, and when each kind of action is taken. */
module WeeklyInvariants {
  import opened Calendar
  import opened Options
  import opened Rounding
  import opened WeeklyModels
  import opened WeeklyStep

  ghost predicate Open(ctx: Context) {
    ctx.active != []
  }

  /** The state tells whether layers are open and whether the corridor was adjusted. */
  ghost predicate StateMatchesLayers(ctx: Context) {
    && (ctx.state == Active <==> Open(ctx) && ctx.adjustments == 0)
    && (ctx.state == Adjusted <==> Open(ctx) && ctx.adjustments > 0)
  }

  /** Open layers carry the last ids handed out, in order. */
  ghost predicate IdsAreLatest(ctx: Context) {
    && 0 < ctx.nextId - |ctx.active|
    && forall i :: 0 <= i < |ctx.active| ==> ctx.active[i].id == ctx.nextId - |ctx.active| + i
  }

  ghost predicate LayerCount(cfg: Config, ctx: Context) {
    && 0 <= ctx.adjustments <= Max(0, cfg.maxAdjustments)
    && (Open(ctx) ==> |ctx.active| == InitialCount(cfg) + ctx.adjustments && |ctx.active| <= cfg.maxActive)
  }

  /** An open corridor belongs to one week and was deployed inside the entry window of that week. */
  ghost predicate ConfinedToWeek(cfg: Config, ctx: Context) {
    Open(ctx) ==>
      && ctx.deployedAt.Some?
      && ctx.center.Some?
      && ctx.week == Some(ctx.deployedAt.value.Week())
      && WithinEntryWindow(cfg, ctx.deployedAt.value)
      && forall i :: 0 <= i < |ctx.active| ==>
           Some(ctx.active[i].week) == ctx.week && ctx.active[i].createdAt.Week() == ctx.active[i].week
  }

  ghost predicate Inv(cfg: Config, ctx: Context) {
    && StateMatchesLayers(ctx)
    && IdsAreLatest(ctx)
    && LayerCount(cfg, ctx)
    && ConfinedToWeek(cfg, ctx)
    && (ctx.state == Idle ==> ctx.adjustments == 0)
    && (ctx.week == None ==> ctx.state == Idle && ctx.active == [] && !ctx.eventSkipped)
  }

  lemma InitialContextIsGood(cfg: Config)
    ensures Inv(cfg, INITIAL_CONTEXT)
  {
  }

  lemma RollWeekKeepsInv(cfg: Config, ctx: Context, bar: Bar)
    requires Inv(cfg, ctx)
    ensures Inv(cfg, RollWeek(ctx, bar).ctx)
    ensures RollWeek(ctx, bar).ctx.week == Some(bar.stamp.Week())
    ensures RollWeek(ctx, bar).ctx.nextId == ctx.nextId
  {
  }

  lemma EnterKeepsInv(cfg: Config, ctx: Context, bar: Bar)
    requires Inv(cfg, ctx) && ctx.state == Idle && ctx.week == Some(bar.stamp.Week())
    ensures Inv(cfg, Enter(cfg, ctx, bar).ctx) && Enter(cfg, ctx, bar).ctx.week == ctx.week
  {
  }

  lemma ManageKeepsInv(cfg: Config, ctx: Context, bar: Bar)
    requires Inv(cfg, ctx) && Open(ctx) && ctx.week == Some(bar.stamp.Week())
    ensures Inv(cfg, Manage(cfg, ctx, bar).ctx) && Manage(cfg, ctx, bar).ctx.week == ctx.week
  {
    hide RoundStrike, BusinessDays;
  }

  /** Every bar keeps the invariant and leaves the machine in the bar's own week. */
  lemma StepKeepsInv(cfg: Config, ctx: Context, bar: Bar)
    requires Inv(cfg, ctx)
    ensures Inv(cfg, Step(cfg, ctx, bar).ctx)
    ensures Step(cfg, ctx, bar).ctx.week == Some(bar.stamp.Week())
  {
    RollWeekKeepsInv(cfg, ctx, bar);
    var rolled := RollWeek(ctx, bar).ctx;
    if rolled.state == Idle {
      EnterKeepsInv(cfg, rolled, bar);
    } else if rolled.active != [] {
      ManageKeepsInv(cfg, rolled, bar);
    }
  }

  /** The open layers after a bar: unchanged, none, a fresh corridor, or one more than before. */
  lemma LayersAfterStep(cfg: Config, ctx: Context, bar: Bar)
    requires Inv(cfg, ctx)
    ensures var after := Step(cfg, ctx, bar).ctx.active;
            var added := MakeLayer(cfg, Adjustment, bar.price, bar.stamp, bar.stamp.Week(), ctx.nextId);
            || after == []
            || after == ctx.active
            || (bar.center.Some?
                && after == InitialLayers(cfg, bar.center.value.price, bar.stamp, bar.stamp.Week(), ctx.nextId))
            || (after == ctx.active + [added] && !BodyTaken(added.body, ctx.active))
  {
    RollWeekKeepsInv(cfg, ctx, bar);
    var rolled := RollWeek(ctx, bar).ctx;
    assert rolled.active == [] || rolled.active == ctx.active;
    if rolled.state == Idle {
      assert rolled.active == [];
      EnteredLayers(cfg, rolled, bar);
    } else if rolled.active != [] {
      ManagedLayers(cfg, rolled, bar);
    }
  }

  lemma EnteredLayers(cfg: Config, ctx: Context, bar: Bar)
    requires ctx.active == []
    ensures var after := Enter(cfg, ctx, bar).ctx.active;
            || after == []
            || (bar.center.Some?
                && after == InitialLayers(cfg, bar.center.value.price, bar.stamp, bar.stamp.Week(), ctx.nextId))
  {
  }

  lemma ManagedLayers(cfg: Config, ctx: Context, bar: Bar)
    ensures var after := Manage(cfg, ctx, bar).ctx.active;
            var added := MakeLayer(cfg, Adjustment, bar.price, bar.stamp, bar.stamp.Week(), ctx.nextId);
            || after == []
            || after == ctx.active
            || (after == ctx.active + [added] && !BodyTaken(added.body, ctx.active))
  {
  }

  /** A record of the bar: it carries the bar's week, price and time, no money yet, and a layer just when it
      opens or closes one. */
  ghost predicate OfBar(bar: Bar, a: Action) {
    && a.week == bar.stamp.Week() && a.price == bar.price && a.stamp == bar.stamp && a.symbol == bar.symbol
    && a.cash == NoCash
    && (a.layer.Some? <==> IsOpening(a.kind) || IsClosing(a.kind))
  }

  ghost predicate AllOfBar(bar: Bar, actions: seq<Action>) {
    forall i :: 0 <= i < |actions| ==> OfBar(bar, actions[i])
  }

  lemma RecordsAreOfBar(bar: Bar, kind: ActionKind, state: State, center: Option<real>, layers: seq<Layer>)
    requires IsOpening(kind) || IsClosing(kind)
    ensures AllOfBar(bar, Records(bar, kind, state, center, layers))
  {
  }

  lemma EnterRecordsAreOfBar(cfg: Config, ctx: Context, bar: Bar)
    ensures AllOfBar(bar, Enter(cfg, ctx, bar).actions)
  {
    hide InitialLayers;
    if bar.center.Some? {
      var center := bar.center.value.price;
      RecordsAreOfBar(bar, DeployInitial, Active, Some(center),
                      InitialLayers(cfg, center, bar.stamp, bar.stamp.Week(), ctx.nextId));
    }
  }

  lemma ManageRecordsAreOfBar(cfg: Config, ctx: Context, bar: Bar)
    ensures AllOfBar(bar, Manage(cfg, ctx, bar).actions)
  {
    hide BusinessDays, MakeLayer;
    var due := DueExit(cfg, ctx.deployedAt, bar.stamp);
    if bar.regime.IsTrend() {
      RecordsAreOfBar(bar, Abort, Aborted, ctx.center, ctx.active);
    } else if due.Some? {
      RecordsAreOfBar(bar, due.value, Exited, ctx.center, ctx.active);
    } else {
      var layer := MakeLayer(cfg, Adjustment, bar.price, bar.stamp, bar.stamp.Week(), ctx.nextId);
      RecordsAreOfBar(bar, AddAdjustment, Adjusted, ctx.center, [layer]);
    }
  }

  lemma StepRecordsAreOfBar(cfg: Config, ctx: Context, bar: Bar)
    ensures AllOfBar(bar, Step(cfg, ctx, bar).actions)
  {
    hide Enter, Manage;
    var rolled := RollWeek(ctx, bar);
    RecordsAreOfBar(bar, ExitWeek, Exited, ctx.center, ctx.active);
    assert AllOfBar(bar, rolled.actions);
    EnterRecordsAreOfBar(cfg, rolled.ctx, bar);
    ManageRecordsAreOfBar(cfg, rolled.ctx, bar);
  }
}
