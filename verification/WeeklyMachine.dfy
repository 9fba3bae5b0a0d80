/** The weekly state machine as the object the backtest drives. */
module WeeklyMachine {
  import opened Calendar
  import opened Options
  import opened Rounding
  import opened WeeklyModels
  import opened WeeklyStep

  /** A butterfly layer: a fixed shape, and money that the engine fills in later. */
  class Butterfly {
    const shape: Layer
    var entryDebit: real
    var entryFriction: real
    var entryCost: real
    var lastMark: real
    var closeFriction: real
    var exitValue: real

    constructor (shape: Layer)
      ensures this.shape == shape
      ensures entryDebit == entryFriction == entryCost == lastMark == closeFriction == exitValue == 0.0
    {
      this.shape := shape;
      entryDebit, entryFriction, entryCost, lastMark, closeFriction, exitValue := 0.0, 0.0, 0.0, 0.0, 0.0, 0.0;
    }
  }

  function Shapes(layers: seq<Butterfly>): (s: seq<Layer>)
    ensures |s| == |layers|
    ensures forall i :: 0 <= i < |s| ==> s[i] == layers[i].shape
  {
    seq(|layers|, i requires 0 <= i < |layers| => layers[i].shape)
  }

  class Machine {
    const cfg: Config
    var state: State
    var week: Option<int>
    var center: Option<real>
    var toleranceLow: Option<real>
    var toleranceHigh: Option<real>
    var active: seq<Butterfly>
    var nextId: int
    var deployedAt: Option<Stamp>
    var adjustments: int
    var realizedPnl: real
    var lastChange: Option<Stamp>
    var eventSkipped: bool

    constructor (cfg: Config)
      ensures this.cfg == cfg && Ctx() == INITIAL_CONTEXT && active == [] && realizedPnl == 0.0
    {
      this.cfg := cfg;
      state, week, center, toleranceLow, toleranceHigh := Idle, None, None, None, None;
      active, nextId, deployedAt, adjustments, realizedPnl := [], 1, None, 0, 0.0;
      lastChange, eventSkipped := None, false;
    }

    /** The context without the realized P&L, which no step of the machine touches. */
    ghost function Ctx(): Context
      reads this
    {
      Context(state, week, center, toleranceLow, toleranceHigh, Shapes(active), nextId, deployedAt, adjustments,
              lastChange, eventSkipped)
    }

    /** A layer that is open after a step was open before it, as the same object, or is new and has a new id. */
    twostate predicate LayersKept()
      reads this
    {
      forall i :: 0 <= i < |active| ==>
        active[i] in old(active) || (fresh(active[i]) && active[i].shape.id >= old(nextId))
    }

    method ProcessBar(bar: Bar) returns (transitions: seq<Transition>, actions: seq<Action>)
      modifies this
      ensures Outcome(Ctx(), transitions, actions) == Step(cfg, old(Ctx()), bar)
      ensures realizedPnl == old(realizedPnl)
      ensures LayersKept()
    {
      hide Enter, Manage;
      transitions, actions := [], [];
      var weekKey := bar.stamp.Week();
      if week == None {
        week := Some(weekKey);
      }
      if active != [] && week != Some(weekKey) {
        var t := Transit(bar, Exited);
        transitions := transitions + [t];
        var closing := CloseLayers(bar, ExitWeek);
        actions := actions + closing;
      }
      if active == [] && week != Some(weekKey) {
        Reset(weekKey);
      }

      if state == Idle {
        var more, records := EnterWeek(bar);
        transitions, actions := transitions + more, actions + records;
      } else if (state == Active || state == Adjusted) && active != [] {
        var more, records := ManageWeek(bar);
        transitions, actions := transitions + more, actions + records;
      }
    }

    method EnterWeek(bar: Bar) returns (transitions: seq<Transition>, actions: seq<Action>)
      modifies this
      ensures Outcome(Ctx(), transitions, actions) == Enter(cfg, old(Ctx()), bar)
      ensures realizedPnl == old(realizedPnl)
      ensures LayersKept()
    {
      transitions, actions := [], [];
      if bar.regime.eventBlocked && WithinEntryWindow(cfg, bar.stamp) {
        if !eventSkipped {
          var center := if bar.center.Some? then Some(bar.center.value.price) else None;
          actions := [Record(bar, SkipEventWeek, state, center, None)];
          eventSkipped := true;
        }
      } else if bar.center.Some? && bar.regime.IsRange() && WithinEntryWindow(cfg, bar.stamp) {
        transitions, actions := DeployCorridor(bar, bar.center.value);
      }
    }

    method DeployCorridor(bar: Bar, estimate: Center) returns (transitions: seq<Transition>, actions: seq<Action>)
      modifies this
      ensures Outcome(Ctx(), transitions, actions) == Deploy(cfg, old(Ctx()), bar, estimate)
      ensures realizedPnl == old(realizedPnl)
      ensures LayersKept()
    {
      transitions, actions := [], [];
      var layers := BuildInitial(estimate.price, bar.stamp, bar.stamp.Week(), nextId);
      if layers != [] {
        active := active + layers;
        assert Shapes(active) == Shapes(old(active)) + Shapes(layers);
        nextId := nextId + |layers|;
        center := Some(estimate.price);
        toleranceLow, toleranceHigh := Some(estimate.toleranceLow), Some(estimate.toleranceHigh);
        deployedAt := Some(bar.stamp);
        week := Some(bar.stamp.Week());
        adjustments := 0;
        eventSkipped := false;
        var t := Transit(bar, Active);
        transitions := [t];
        actions := Records(bar, DeployInitial, state, center, Shapes(layers));
      }
    }

    method ManageWeek(bar: Bar) returns (transitions: seq<Transition>, actions: seq<Action>)
      modifies this
      ensures Outcome(Ctx(), transitions, actions) == Manage(cfg, old(Ctx()), bar)
      ensures realizedPnl == old(realizedPnl)
      ensures LayersKept()
    {
      hide RoundStrike, BusinessDays;
      transitions, actions := [], [];
      if bar.regime.IsTrend() {
        var t := Transit(bar, Aborted);
        transitions := [t];
        actions := CloseLayers(bar, Abort);
        return;
      }
      var due := DueExit(cfg, deployedAt, bar.stamp);
      if due.Some? {
        var t := Transit(bar, Exited);
        transitions := [t];
        actions := CloseLayers(bar, due.value);
        return;
      }
      if ShouldAdjust(cfg, center, bar.price) && adjustments < cfg.maxAdjustments && |active| < cfg.maxActive {
        var layer := new Butterfly(MakeLayer(cfg, Adjustment, bar.price, bar.stamp, bar.stamp.Week(), nextId));
        if !BodyTaken(layer.shape.body, Shapes(active)) {
          active := active + [layer];
          nextId := nextId + 1;
          adjustments := adjustments + 1;
          var t := Transit(bar, Adjusted);
          transitions := [t];
          actions := Records(bar, AddAdjustment, state, center, [layer.shape]);
        }
      }
    }

    method BuildInitial(center: real, stamp: Stamp, week: int, firstId: int) returns (layers: seq<Butterfly>)
      ensures Shapes(layers) == InitialLayers(cfg, center, stamp, week, firstId)
      ensures forall i :: 0 <= i < |layers| ==> fresh(layers[i])
    {
      layers := [];
      for i := 0 to InitialCount(cfg)
        invariant |layers| == i
        invariant Shapes(layers) == InitialLayers(cfg, center, stamp, week, firstId)[..i]
        invariant forall k :: 0 <= k < |layers| ==> fresh(layers[k])
      {
        var layer := new Butterfly(InitialLayer(cfg, center, stamp, week, firstId, i));
        layers := layers + [layer];
      }
    }

    method Transit(bar: Bar, to: State) returns (t: Transition)
      modifies `state, `lastChange
      ensures t == Move(old(Ctx()), bar, to)
      ensures Ctx() == Moved(old(Ctx()), bar, to)
    {
      t := Transition(bar.stamp, bar.symbol, bar.stamp.Week(), state, to, bar.regime.regime, bar.price,
                      center, |active|, adjustments);
      state, lastChange := to, Some(bar.stamp);
    }

    method CloseLayers(bar: Bar, kind: ActionKind) returns (actions: seq<Action>)
      modifies `active
      ensures actions == Records(bar, kind, state, center, Shapes(old(active)))
      ensures active == [] && Ctx() == old(Ctx()).(active := [])
    {
      actions := [];
      for i := 0 to |active|
        invariant actions == Records(bar, kind, state, center, Shapes(active))[..i]
        invariant active == old(active)
      {
        actions := actions + [Record(bar, kind, state, center, Some(active[i].shape))];
      }
      active := [];
    }

    method Reset(weekKey: int)
      modifies this
      ensures Ctx() == ResetForWeek(old(Ctx()), weekKey)
      ensures realizedPnl == old(realizedPnl) && active == []
    {
      state, week := Idle, Some(weekKey);
      center, toleranceLow, toleranceHigh := None, None, None;
      active, deployedAt, adjustments, lastChange, eventSkipped := [], None, 0, None, false;
    }
  }
}
