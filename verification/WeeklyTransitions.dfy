/** The transitions of the weekly machine: a path through the states that tells what happened on every bar. */
module WeeklyTransitions {
  import opened Options
  import opened WeeklyModels
  import opened WeeklyStep
  import opened WeeklyInvariants
  import opened WeeklyRuns
  import opened WeeklySafety

  // ---------- The transitions of one bar ----------

  predicate IsOpenState(state: State) {
    state == Active || state == Adjusted
  }

  /** A corridor is deployed, adjusted, and then closed. */
  predicate IsMove(from: State, to: State) {
    || (from == Idle && to == Active)
    || (IsOpenState(from) && (to == Adjusted || to == Aborted || to == Exited))
  }

  /** The bar is of a week that the machine has left behind or not yet begun. */
  predicate StartsWeek(ctx: Context, bar: Bar) {
    ctx.week.Some? && ctx.week != Some(bar.stamp.Week())
  }

  /** When and where the price was. */
  predicate IsOfBar(bar: Bar, t: Transition) {
    && t.stamp == bar.stamp && t.symbol == bar.symbol && t.week == bar.stamp.Week()
    && t.regime == bar.regime.regime && t.price == bar.price
  }

  /** Center, layers and adjustments: of what a closing transition closes, and of what an opening one has opened. */
  predicate TellsOf(ctx: Context, after: Context, t: Transition) {
    var at := if t.to == Active || t.to == Adjusted then after else ctx;
    t.center == at.center && t.activeLayers == |at.active| && t.adjustments == at.adjustments
  }

  /** The one transition of a part of a step, if it changes the state at all. */
  ghost predicate IsOneMove(ctx: Context, bar: Bar, o: Outcome) {
    match |o.transitions|
    case 0 => o.ctx.state == ctx.state
    case 1 =>
      var t := o.transitions[0];
      && t.from == ctx.state && t.to == o.ctx.state && IsMove(t.from, t.to)
      && IsOfBar(bar, t) && TellsOf(ctx, o.ctx, t)
    case _ => false
  }

  lemma EnterMoves(cfg: Config, ctx: Context, bar: Bar)
    requires ctx.state == Idle
    ensures IsOneMove(ctx, bar, Enter(cfg, ctx, bar))
    ensures Enter(cfg, ctx, bar).transitions != [] ==> Enter(cfg, ctx, bar).ctx.state == Active
  {
    hide WithinEntryWindow, InitialLayers;
  }

  lemma ManageMoves(cfg: Config, ctx: Context, bar: Bar)
    requires IsOpenState(ctx.state)
    ensures IsOneMove(ctx, bar, Manage(cfg, ctx, bar))
  {
    hide DueExit, ShouldAdjust, MakeLayer, BodyTaken;
  }

  /** The transition that closes what a new week finds open. */
  predicate IsRollover(ctx: Context, bar: Bar, t: Transition) {
    && t.from == ctx.state && t.to == Exited && IsMove(t.from, t.to)
    && IsOfBar(bar, t) && TellsOf(ctx, ctx, t)
  }

  lemma RollMoves(cfg: Config, ctx: Context, bar: Bar)
    requires Inv(cfg, ctx)
    ensures var o := RollWeek(ctx, bar);
            if !StartsWeek(ctx, bar) then o.transitions == [] && o.ctx.state == ctx.state && o.ctx.active == ctx.active
            else && o.ctx.state == Idle
                 && if ctx.active == [] then o.transitions == []
                    else |o.transitions| == 1 && IsRollover(ctx, bar, o.transitions[0])
  {
  }

  /** The transitions of a bar lead from the state before it to the state after it. On a bar of a new week the machine
      closes what is open, is idle, and may deploy; on another bar it makes one transition at most. */
  lemma BarTransitions(cfg: Config, ctx: Context, bar: Bar)
    requires Inv(cfg, ctx)
    ensures var o := Step(cfg, ctx, bar);
            var ts, n := o.transitions, |o.transitions|;
            if !StartsWeek(ctx, bar) then
              match n
              case 0 => o.ctx.state == ctx.state
              case 1 => ts[0].from == ctx.state && ts[0].to == o.ctx.state && IsMove(ts[0].from, ts[0].to)
              case _ => false
            else
              var closed := if ctx.active != [] then 1 else 0;
              && closed <= n <= closed + 1
              && (closed == 1 ==> ts[0].from == ctx.state && ts[0].to == Exited && IsMove(ts[0].from, ts[0].to))
              && (n == closed ==> o.ctx.state == Idle)
              && (n > closed ==> ts[n - 1].from == Idle && ts[n - 1].to == o.ctx.state == Active)
    ensures forall i :: 0 <= i < |Step(cfg, ctx, bar).transitions| ==> IsOfBar(bar, Step(cfg, ctx, bar).transitions[i])
  {
    hide Enter, Manage;
    RollMoves(cfg, ctx, bar);
    RollWeekKeepsInv(cfg, ctx, bar);
    var rolled := RollWeek(ctx, bar);
    hide RollWeek, TellsOf, IsOfBar;
    if rolled.ctx.state == Idle {
      EnterMoves(cfg, rolled.ctx, bar);
    } else if IsOpenState(rolled.ctx.state) && rolled.ctx.active != [] {
      ManageMoves(cfg, rolled.ctx, bar);
    }
  }

  // ---------- Transitions and actions ----------

  ghost predicate Reaches(ts: seq<Transition>, to: State) {
    exists i :: 0 <= i < |ts| && ts[i].to == to
  }

  /** The state that a record of a kind is made in, and the kinds of records that go with a transition. */
  function StateFor(kind: ActionKind): State {
    match kind
    case DeployInitial => Active
    case AddAdjustment => Adjusted
    case Abort => Aborted
    case SkipEventWeek => Idle
    case _ => Exited
  }

  ghost predicate MatchesActions(o: Outcome) {
    && (Reaches(o.transitions, Active) <==> Emits(o.actions, DeployInitial))
    && (Reaches(o.transitions, Adjusted) <==> Emits(o.actions, AddAdjustment))
    && (Reaches(o.transitions, Aborted) <==> Emits(o.actions, Abort))
    && (Reaches(o.transitions, Exited) <==>
          Emits(o.actions, ExitWeek) || Emits(o.actions, ExitHold) || Emits(o.actions, ExitDte))
    && !Reaches(o.transitions, Idle)
    && forall i :: 0 <= i < |o.actions| ==> o.actions[i].state == StateFor(o.actions[i].kind)
  }

  /** Some layers leave records of one kind. */
  lemma OfOneKind(o: Outcome, kind: ActionKind)
    requires |o.transitions| == 1 && o.actions != []
    requires forall i :: 0 <= i < |o.actions| ==> o.actions[i].kind == kind && o.actions[i].state == StateFor(kind)
    requires o.transitions[0].to == StateFor(kind) != Idle
    ensures MatchesActions(o)
  {
    assert o.actions[0].kind == kind && o.transitions[0].to == StateFor(kind);
  }

  lemma NoTransitionNoMove(o: Outcome)
    requires o.transitions == []
    requires forall i :: 0 <= i < |o.actions| ==> o.actions[i].kind == SkipEventWeek && o.actions[i].state == Idle
    ensures MatchesActions(o)
  {
  }

  lemma ReachesConcat(a: seq<Transition>, b: seq<Transition>, to: State)
    ensures Reaches(a + b, to) <==> Reaches(a, to) || Reaches(b, to)
  {
    if i :| 0 <= i < |a| && a[i].to == to {
      assert (a + b)[i].to == to;
    }
    if i :| 0 <= i < |b| && b[i].to == to {
      assert (a + b)[|a| + i].to == to;
    }
  }

  lemma ThenMatches(first: Outcome, second: Outcome)
    requires MatchesActions(first) && MatchesActions(second)
    ensures MatchesActions(Then(first, second))
  {
    forall to {
      ReachesConcat(first.transitions, second.transitions, to);
    }
    forall k {
      EmitsConcat(first.actions, second.actions, k);
    }
    hide Reaches, Emits;
  }

  lemma EnterMatches(cfg: Config, ctx: Context, bar: Bar)
    requires ctx.state == Idle
    ensures MatchesActions(Enter(cfg, ctx, bar))
  {
    hide WithinEntryWindow, MatchesActions;
    var o := Enter(cfg, ctx, bar);
    if o.transitions == [] {
      NoTransitionNoMove(o);
    } else {
      OfOneKind(o, DeployInitial);
    }
  }

  lemma ManageMatches(cfg: Config, ctx: Context, bar: Bar)
    requires IsOpenState(ctx.state) && ctx.active != []
    ensures MatchesActions(Manage(cfg, ctx, bar))
  {
    hide ShouldAdjust, MakeLayer, BodyTaken, MatchesActions;
    var o, due := Manage(cfg, ctx, bar), DueExit(cfg, ctx.deployedAt, bar.stamp);
    if bar.regime.IsTrend() {
      OfOneKind(o, Abort);
    } else if due.Some? {
      OfOneKind(o, due.value);
    } else if o.transitions == [] {
      NoTransitionNoMove(o);
    } else {
      OfOneKind(o, AddAdjustment);
    }
  }

  lemma RollMatches(ctx: Context, bar: Bar)
    ensures MatchesActions(RollWeek(ctx, bar))
  {
    hide MatchesActions;
    var o := RollWeek(ctx, bar);
    if o.transitions == [] {
      NoTransitionNoMove(o);
    } else {
      OfOneKind(o, ExitWeek);
    }
  }

  /** On every bar the machine goes to ACTIVE, ADJUSTED, ABORTED or EXITED exactly when it deploys, adjusts, aborts or
      exits, and the records carry that state. */
  lemma TransitionsMatchActions(cfg: Config, ctx: Context, bar: Bar)
    requires Inv(cfg, ctx)
    ensures MatchesActions(Step(cfg, ctx, bar))
  {
    hide Enter, Manage, MatchesActions;
    var rolled := RollWeek(ctx, bar);
    RollMatches(ctx, bar);
    if rolled.ctx.state == Idle {
      EnterMatches(cfg, rolled.ctx, bar);
      ThenMatches(rolled, Enter(cfg, rolled.ctx, bar));
    } else if IsOpenState(rolled.ctx.state) && rolled.ctx.active != [] {
      ManageMatches(cfg, rolled.ctx, bar);
      ThenMatches(rolled, Manage(cfg, rolled.ctx, bar));
    }
  }

  // ---------- Centers of records ----------

  /** A deployment or a skip tells the center of the bar, and any other record that of the corridor. */
  predicate TellsCenter(ctx: Context, bar: Bar, a: Action) {
    a.center ==
    if a.kind == DeployInitial || a.kind == SkipEventWeek then
      if bar.center.Some? then Some(bar.center.value.price) else None
    else ctx.center
  }

  ghost predicate AllTellCenter(ctx: Context, bar: Bar, actions: seq<Action>) {
    forall i :: 0 <= i < |actions| ==> TellsCenter(ctx, bar, actions[i])
  }

  lemma EnterTellsCenter(cfg: Config, was: Context, ctx: Context, bar: Bar)
    ensures AllTellCenter(was, bar, Enter(cfg, ctx, bar).actions)
  {
    hide WithinEntryWindow, InitialLayers;
  }

  lemma ManageTellsCenter(cfg: Config, ctx: Context, bar: Bar)
    ensures AllTellCenter(ctx, bar, Manage(cfg, ctx, bar).actions)
  {
    hide ShouldAdjust, MakeLayer, BodyTaken;
  }

  lemma SameCenter(was: Context, ctx: Context, bar: Bar, actions: seq<Action>)
    requires was.center == ctx.center && AllTellCenter(was, bar, actions)
    ensures AllTellCenter(ctx, bar, actions)
  {
  }

  /** On every bar the records tell the right center. */
  lemma RecordsTellCenter(cfg: Config, ctx: Context, bar: Bar)
    ensures AllTellCenter(ctx, bar, Step(cfg, ctx, bar).actions)
  {
    hide Enter, Manage;
    var rolled := RollWeek(ctx, bar);
    assert AllTellCenter(ctx, bar, rolled.actions);
    if rolled.ctx.state == Idle {
      EnterTellsCenter(cfg, ctx, rolled.ctx, bar);
    } else if IsOpenState(rolled.ctx.state) && rolled.ctx.active != [] {
      ManageTellsCenter(cfg, rolled.ctx, bar);
      SameCenter(rolled.ctx, ctx, bar, Manage(cfg, rolled.ctx, bar).actions);
    }
  }

  // ---------- The transitions of a run ----------

  predicate IsClosed(state: State) {
    state == Aborted || state == Exited
  }

  /** A state follows another one: it is the same, or a new week made the machine idle. */
  predicate Continues(before: State, after: State) {
    after == before || (IsClosed(before) && after == Idle)
  }

  ghost predicate IsPath(ts: seq<Transition>, state: State) {
    && (forall i :: 0 <= i < |ts| ==> IsMove(ts[i].from, ts[i].to))
    && (forall i :: 0 < i < |ts| ==> Continues(ts[i - 1].to, ts[i].from))
    && (if ts == [] then state == Idle else ts[0].from == Idle && Continues(ts[|ts| - 1].to, state))
  }

  lemma PathGoesOn(ts: seq<Transition>, cfg: Config, ctx: Context, bar: Bar)
    requires IsPath(ts, ctx.state) && Inv(cfg, ctx)
    ensures var o := Step(cfg, ctx, bar); IsPath(ts + o.transitions, o.ctx.state)
  {
    hide Step, IsOfBar;
    BarTransitions(cfg, ctx, bar);
    MovesEnd(cfg, ctx);
  }

  lemma MovesEnd(cfg: Config, ctx: Context)
    requires Inv(cfg, ctx)
    ensures ctx.active != [] <==> IsOpenState(ctx.state)
    ensures !IsOpenState(ctx.state) ==> ctx.state == Idle || IsClosed(ctx.state)
    ensures forall s :: IsOpenState(s) ==> !IsClosed(s)
  {
  }

  /** The transitions of a run are a path from IDLE to the state of the machine: each one is a deployment, an
      adjustment or a closing, and starts where the one before it ended, or idle in a new week after a closing. */
  lemma {:induction false} TransitionsArePath(cfg: Config, bars: seq<Bar>)
    ensures IsPath(Run(cfg, bars).transitions, Run(cfg, bars).ctx.state)
  {
    hide Step, IsPath;
    if bars == [] {
      NothingIsPath();
    } else {
      var before := bars[..|bars| - 1];
      TransitionsArePath(cfg, before);
      RunKeepsInv(cfg, before);
      PathGoesOn(Run(cfg, before).transitions, cfg, Run(cfg, before).ctx, bars[|bars| - 1]);
    }
  }

  lemma NothingIsPath()
    ensures IsPath([], Idle)
  {
  }

  // ---------- What the machine remembers ----------

  /** The corridor of the context was deployed on this bar, around its center. */
  predicate IsDeployedOn(cfg: Config, bar: Bar, ctx: Context) {
    && bar.center.Some? && bar.regime.IsRange() && WithinEntryWindow(cfg, bar.stamp)
    && ctx.center == Some(bar.center.value.price)
    && ctx.toleranceLow == Some(bar.center.value.toleranceLow)
    && ctx.toleranceHigh == Some(bar.center.value.toleranceHigh)
    && ctx.deployedAt == Some(bar.stamp) && ctx.week == Some(bar.stamp.Week())
  }

  ghost predicate IsDeployed(cfg: Config, bars: seq<Bar>, ctx: Context) {
    exists i :: 0 <= i < |bars| && IsDeployedOn(cfg, bars[i], ctx)
  }

  /** The week of the context was skipped on this bar. */
  predicate IsSkippedOn(cfg: Config, bar: Bar, ctx: Context) {
    bar.regime.eventBlocked && WithinEntryWindow(cfg, bar.stamp) && ctx.week == Some(bar.stamp.Week())
  }

  ghost predicate IsSkipped(cfg: Config, bars: seq<Bar>, ctx: Context) {
    exists i :: 0 <= i < |bars| && IsSkippedOn(cfg, bars[i], ctx)
  }

  ghost predicate Remembers(cfg: Config, bars: seq<Bar>, ts: seq<Transition>, ctx: Context) {
    if ctx.state == Idle then
      && ctx.center == ctx.toleranceLow == ctx.toleranceHigh == None
      && ctx.deployedAt == ctx.lastChange == None && ctx.active == []
      && (ctx.eventSkipped ==> IsSkipped(cfg, bars, ctx))
    else
      && !ctx.eventSkipped && IsDeployed(cfg, bars, ctx)
      && ts != [] && ctx.lastChange == Some(ts[|ts| - 1].stamp)
  }

  lemma RollRemembers(cfg: Config, bars: seq<Bar>, ts: seq<Transition>, ctx: Context, bar: Bar)
    requires Inv(cfg, ctx) && Remembers(cfg, bars, ts, ctx)
    ensures var o := RollWeek(ctx, bar); Remembers(cfg, bars, ts + o.transitions, o.ctx)
  {
    hide WithinEntryWindow;
    RollMoves(cfg, ctx, bar);
  }

  lemma EnterRemembers(cfg: Config, bars: seq<Bar>, ts: seq<Transition>, ctx: Context, bar: Bar)
    requires Remembers(cfg, bars, ts, ctx) && ctx.state == Idle && ctx.week == Some(bar.stamp.Week())
    ensures var o := Enter(cfg, ctx, bar); Remembers(cfg, bars + [bar], ts + o.transitions, o.ctx)
  {
    hide WithinEntryWindow, InitialLayers;
    assert (bars + [bar])[|bars|] == bar;
    assert forall i :: 0 <= i < |bars| ==> (bars + [bar])[i] == bars[i];
  }

  lemma ManageRemembers(cfg: Config, bars: seq<Bar>, ts: seq<Transition>, ctx: Context, bar: Bar)
    requires Remembers(cfg, bars, ts, ctx) && IsOpenState(ctx.state)
    ensures var o := Manage(cfg, ctx, bar); Remembers(cfg, bars + [bar], ts + o.transitions, o.ctx)
  {
    hide WithinEntryWindow, DueExit, ShouldAdjust, MakeLayer, BodyTaken;
    MoreBars(cfg, bars, bar, ctx);
    assert forall i :: 0 <= i < |bars| ==> (bars + [bar])[i] == bars[i];
  }

  lemma MoreBars(cfg: Config, bars: seq<Bar>, bar: Bar, ctx: Context)
    ensures IsDeployed(cfg, bars, ctx) ==> IsDeployed(cfg, bars + [bar], ctx)
    ensures IsSkipped(cfg, bars, ctx) ==> IsSkipped(cfg, bars + [bar], ctx)
  {
    hide IsDeployedOn, IsSkippedOn;
    assert forall i :: 0 <= i < |bars| ==> (bars + [bar])[i] == bars[i];
  }

  /** At every moment of a run the machine remembers no more than it should: idle, at most that its week was skipped,
      and otherwise the bar of its week that deployed the corridor, with its center, and the instant of the last
      transition. */
  lemma {:induction false} RunRemembers(cfg: Config, bars: seq<Bar>)
    ensures Remembers(cfg, bars, Run(cfg, bars).transitions, Run(cfg, bars).ctx)
  {
    hide Enter, Manage, RollWeek, Remembers;
    if bars == [] {
      NothingToRemember(cfg);
    } else {
      var n, bar := |bars| - 1, bars[|bars| - 1];
      var before := Run(cfg, bars[..n]);
      assert bars == bars[..n] + [bar];
      RunRemembers(cfg, bars[..n]);
      RunKeepsInv(cfg, bars[..n]);
      RollRemembers(cfg, bars[..n], before.transitions, before.ctx, bar);
      RollWeekKeepsInv(cfg, before.ctx, bar);
      var rolled := RollWeek(before.ctx, bar);
      var ts := before.transitions + rolled.transitions;
      if rolled.ctx.state == Idle {
        EnterRemembers(cfg, bars[..n], ts, rolled.ctx, bar);
        var entered := Enter(cfg, rolled.ctx, bar);
        assert ts + entered.transitions == before.transitions + (rolled.transitions + entered.transitions);
      } else if IsOpenState(rolled.ctx.state) && rolled.ctx.active != [] {
        ManageRemembers(cfg, bars[..n], ts, rolled.ctx, bar);
        var managed := Manage(cfg, rolled.ctx, bar);
        assert ts + managed.transitions == before.transitions + (rolled.transitions + managed.transitions);
      } else {
        SameRemembers(cfg, bars[..n], ts, rolled.ctx, bar);
      }
    }
  }

  lemma SameRemembers(cfg: Config, bars: seq<Bar>, ts: seq<Transition>, ctx: Context, bar: Bar)
    requires Remembers(cfg, bars, ts, ctx)
    ensures Remembers(cfg, bars + [bar], ts, ctx)
  {
    MoreBars(cfg, bars, bar, ctx);
  }

  lemma NothingToRemember(cfg: Config)
    ensures Remembers(cfg, [], [], INITIAL_CONTEXT)
  {
  }
}
