/** What the records of a log, of a bar and of a step say about one week. */
module WeeklyTallies {
  import opened Options
  import opened Rounding
  import opened WeeklyModels
  import opened WeeklyStep
  import opened WeeklyRuns

  /** Records of a kind that carry the week key `week`. */
  function Count(log: seq<Action>, kind: ActionKind, week: int): nat {
    if log == [] then 0
    else
      var last := log[|log| - 1];
      Count(log[..|log| - 1], kind, week) + (if last.kind == kind && last.week == week then 1 else 0)
  }

  lemma {:induction false} CountConcat(a: seq<Action>, b: seq<Action>, kind: ActionKind, week: int)
    ensures Count(a + b, kind, week) == Count(a, kind, week) + Count(b, kind, week)
  {
    if b == [] {
      assert a + b == a;
    } else {
      assert (a + b)[..|a + b| - 1] == a + b[..|b| - 1];
      CountConcat(a, b[..|b| - 1], kind, week);
    }
  }

  lemma {:induction false} CountRecords(
      bar: Bar, k: ActionKind, state: State, center: Option<real>, layers: seq<Layer>, kind: ActionKind, week: int)
    ensures Count(Records(bar, k, state, center, layers), kind, week) ==
            if k == kind && bar.stamp.Week() == week then |layers| else 0
  {
    if layers != [] {
      var n := |layers| - 1;
      RecordsPrefix(bar, k, state, center, layers);
      CountRecords(bar, k, state, center, layers[..n], kind, week);
    }
  }

  /** The four counts that matter for one week. */
  datatype Tally = Tally(deploys: nat, adjustments: nat, skips: nat, aborts: nat)

  function TallyOf(log: seq<Action>, week: int): Tally {
    Tally(Count(log, DeployInitial, week), Count(log, AddAdjustment, week),
          Count(log, SkipEventWeek, week), Count(log, Abort, week))
  }

  function Plus(a: Tally, b: Tally): Tally {
    Tally(a.deploys + b.deploys, a.adjustments + b.adjustments, a.skips + b.skips, a.aborts + b.aborts)
  }

  const NOTHING := Tally(0, 0, 0, 0)

  lemma TallyConcat(a: seq<Action>, b: seq<Action>, week: int)
    ensures TallyOf(a + b, week) == Plus(TallyOf(a, week), TallyOf(b, week))
  {
    hide Count;
    CountConcat(a, b, DeployInitial, week);
    CountConcat(a, b, AddAdjustment, week);
    CountConcat(a, b, SkipEventWeek, week);
    CountConcat(a, b, Abort, week);
  }

  lemma TallyRecords(bar: Bar, k: ActionKind, state: State, center: Option<real>, layers: seq<Layer>, week: int)
    ensures var n := if bar.stamp.Week() == week then |layers| else 0;
            TallyOf(Records(bar, k, state, center, layers), week) ==
            Tally(if k == DeployInitial then n else 0, if k == AddAdjustment then n else 0,
                  if k == SkipEventWeek then n else 0, if k == Abort then n else 0)
  {
    hide Count;
    CountRecords(bar, k, state, center, layers, DeployInitial, week);
    CountRecords(bar, k, state, center, layers, AddAdjustment, week);
    CountRecords(bar, k, state, center, layers, SkipEventWeek, week);
    CountRecords(bar, k, state, center, layers, Abort, week);
  }

  /** A week is either never traded, or deployed once in full; only a traded week is adjusted, at most as often
      as allowed, or aborted; and at most one skip is recorded. */
  ghost predicate WeekIsSafe(cfg: Config, t: Tally) {
    && (t.deploys == 0 || t.deploys == InitialCount(cfg))
    && t.adjustments <= Max(0, cfg.maxAdjustments)
    && t.skips <= 1
    && (t.adjustments > 0 || t.aborts > 0 ==> t.deploys > 0)
  }

  lemma RollWeekTally(ctx: Context, bar: Bar, week: int)
    ensures TallyOf(RollWeek(ctx, bar).actions, week) == NOTHING
  {
    TallyRecords(bar, ExitWeek, Exited, ctx.center, ctx.active, week);
  }

  /** What an idle machine adds to the tally of the bar's week. */
  function EnterTally(cfg: Config, ctx: Context, bar: Bar): Tally {
    if !WithinEntryWindow(cfg, bar.stamp) then NOTHING
    else if bar.regime.eventBlocked then Tally(0, 0, if ctx.eventSkipped then 0 else 1, 0)
    else if bar.center.Some? && bar.regime.IsRange() then Tally(InitialCount(cfg), 0, 0, 0)
    else NOTHING
  }

  lemma EnterTallies(cfg: Config, ctx: Context, bar: Bar, week: int)
    ensures TallyOf(Enter(cfg, ctx, bar).actions, week) ==
            if bar.stamp.Week() == week then EnterTally(cfg, ctx, bar) else NOTHING
  {
    if WithinEntryWindow(cfg, bar.stamp) && bar.regime.eventBlocked {
      if !ctx.eventSkipped {
        TallyOne(Enter(cfg, ctx, bar).actions[0], week);
      }
    } else if bar.center.Some? {
      var layers := InitialLayers(cfg, bar.center.value.price, bar.stamp, bar.stamp.Week(), ctx.nextId);
      TallyRecords(bar, DeployInitial, Active, Some(bar.center.value.price), layers, week);
    }
  }

  lemma CountOne(a: Action, kind: ActionKind, week: int)
    ensures Count([a], kind, week) == if a.kind == kind && a.week == week then 1 else 0
  {
    assert [a][..0] == [];
  }

  lemma TallyOne(a: Action, week: int)
    ensures TallyOf([a], week) ==
            var n := if a.week == week then 1 else 0;
            Tally(if a.kind == DeployInitial then n else 0, if a.kind == AddAdjustment then n else 0,
                  if a.kind == SkipEventWeek then n else 0, if a.kind == Abort then n else 0)
  {
    CountOne(a, DeployInitial, week);
    CountOne(a, AddAdjustment, week);
    CountOne(a, SkipEventWeek, week);
    CountOne(a, Abort, week);
  }

  /** What an open corridor adds to the tally of the bar's week. */
  function ManageTally(cfg: Config, ctx: Context, bar: Bar): Tally {
    if bar.regime.IsTrend() then Tally(0, 0, 0, |ctx.active|)
    else if Manage(cfg, ctx, bar).ctx.state == Exited then NOTHING
    else Tally(0, Max(0, Manage(cfg, ctx, bar).ctx.adjustments - ctx.adjustments), 0, 0)
  }

  lemma ManageTallies(cfg: Config, ctx: Context, bar: Bar, week: int)
    requires ctx.state == Active || ctx.state == Adjusted
    ensures TallyOf(Manage(cfg, ctx, bar).actions, week) ==
            if bar.stamp.Week() == week then ManageTally(cfg, ctx, bar) else NOTHING
  {
    var due := DueExit(cfg, ctx.deployedAt, bar.stamp);
    if bar.regime.IsTrend() {
      TallyRecords(bar, Abort, Aborted, ctx.center, ctx.active, week);
    } else if due.Some? {
      TallyRecords(bar, due.value, Exited, ctx.center, ctx.active, week);
    } else {
      var layer := MakeLayer(cfg, Adjustment, bar.price, bar.stamp, bar.stamp.Week(), ctx.nextId);
      TallyRecords(bar, AddAdjustment, Adjusted, ctx.center, [layer], week);
    }
  }

  lemma EnterContext(cfg: Config, ctx: Context, bar: Bar)
    requires ctx.state == Idle && ctx.week == Some(bar.stamp.Week()) && ctx.adjustments == 0
    ensures var c, dt := Enter(cfg, ctx, bar).ctx, EnterTally(cfg, ctx, bar);
            && c.week == ctx.week
            && c.adjustments == 0
            && c.state == (if dt.deploys > 0 then Active else Idle)
            && (dt.deploys == 0 ==> c.eventSkipped == (ctx.eventSkipped || dt.skips > 0))
  {
  }

  lemma ManageContext(cfg: Config, ctx: Context, bar: Bar)
    requires 0 <= ctx.adjustments && ctx.state != Idle && ctx.week == Some(bar.stamp.Week())
    ensures var c := Manage(cfg, ctx, bar).ctx;
            && c.week == ctx.week
            && c.state != Idle
            && ctx.adjustments <= c.adjustments <= ctx.adjustments + 1
            && (c.adjustments > ctx.adjustments ==> c.adjustments <= cfg.maxAdjustments)
            && (bar.regime.IsTrend() || c.state == Exited ==> c.adjustments == ctx.adjustments)
  {
  }

  lemma NothingAdds(t: Tally)
    ensures Plus(NOTHING, t) == t && Plus(t, NOTHING) == t
  {
  }
}
