/** Safety of whole weekly runs: when each action is taken, and where the bodies of open layers lie. */
module WeeklySafety {
  import opened Calendar
  import opened Options
  import opened Rounding
  import opened WeeklyModels
  import opened WeeklyStep
  import opened WeeklyInvariants
  import opened WeeklyRuns

  // ---------- When a bar takes which action ----------

  ghost predicate Emits(actions: seq<Action>, kind: ActionKind) {
    exists i :: 0 <= i < |actions| && actions[i].kind == kind
  }

  /** The corridor is open and the bar belongs to its week. */
  ghost predicate Held(ctx: Context, bar: Bar) {
    Open(ctx) && ctx.week == Some(bar.stamp.Week())
  }

  /** The machine may enter on this bar: it is idle, or the bar starts another week. */
  ghost predicate MayEnter(cfg: Config, ctx: Context, bar: Bar) {
    (ctx.state == Idle || ctx.week != Some(bar.stamp.Week())) && WithinEntryWindow(cfg, bar.stamp)
  }

  ghost predicate DteIsLow(cfg: Config, ctx: Context, bar: Bar) {
    ctx.deployedAt.Some? && RemainingDte(cfg, ctx.deployedAt.value, bar.stamp) <= cfg.minRemainingDte
  }

  ghost predicate HeldTooLong(cfg: Config, ctx: Context, bar: Bar) {
    ctx.deployedAt.Some? && BusinessDays(ctx.deployedAt.value.day, bar.stamp.day) >= cfg.maxHoldDays
  }

  ghost predicate ForcedOut(cfg: Config, bar: Bar) {
    bar.stamp.Weekday() >= cfg.forcedExitWeekday && bar.stamp.clock >= cfg.forcedExitTime
  }

  ghost predicate Drifted(cfg: Config, ctx: Context, bar: Bar) {
    && ctx.center.Some?
    && (bar.price > ctx.center.value + cfg.centerTolerance || bar.price < ctx.center.value - cfg.centerTolerance)
  }

  /** The condition on the context before the bar under which an action of the kind is taken. */
  ghost predicate Due(cfg: Config, ctx: Context, bar: Bar, kind: ActionKind) {
    match kind
    case Abort => Held(ctx, bar) && bar.regime.IsTrend()
    case ExitDte => Held(ctx, bar) && !bar.regime.IsTrend() && DteIsLow(cfg, ctx, bar)
    case ExitHold =>
      Held(ctx, bar) && !bar.regime.IsTrend() && !DteIsLow(cfg, ctx, bar) && HeldTooLong(cfg, ctx, bar)
    case ExitWeek =>
      || (Open(ctx) && ctx.week != Some(bar.stamp.Week()))
      || (&& Held(ctx, bar) && !bar.regime.IsTrend()
          && !DteIsLow(cfg, ctx, bar) && !HeldTooLong(cfg, ctx, bar) && ForcedOut(cfg, bar))
    case AddAdjustment =>
      && Held(ctx, bar) && !bar.regime.IsTrend()
      && !DteIsLow(cfg, ctx, bar) && !HeldTooLong(cfg, ctx, bar) && !ForcedOut(cfg, bar)
      && Drifted(cfg, ctx, bar)
      && ctx.adjustments < cfg.maxAdjustments && |ctx.active| < cfg.maxActive
      && !BodyTaken(RoundStrike(bar.price, cfg.centerRounding), ctx.active)
    case SkipEventWeek =>
      MayEnter(cfg, ctx, bar) && bar.regime.eventBlocked && !(ctx.week == Some(bar.stamp.Week()) && ctx.eventSkipped)
    case DeployInitial =>
      && MayEnter(cfg, ctx, bar) && !bar.regime.eventBlocked
      && bar.regime.IsRange() && bar.center.Some? && cfg.maxActive > 0
  }

  lemma RecordsEmit(bar: Bar, kind: ActionKind, state: State, center: Option<real>, layers: seq<Layer>, k: ActionKind)
    ensures Emits(Records(bar, kind, state, center, layers), k) <==> layers != [] && k == kind
  {
    if layers != [] {
      assert Records(bar, kind, state, center, layers)[0].kind == kind;
    }
  }

  lemma EmitsConcat(a: seq<Action>, b: seq<Action>, k: ActionKind)
    ensures Emits(a + b, k) <==> Emits(a, k) || Emits(b, k)
  {
    if Emits(a, k) {
      var i :| 0 <= i < |a| && a[i].kind == k;
      assert (a + b)[i].kind == k;
    }
    if Emits(b, k) {
      var i :| 0 <= i < |b| && b[i].kind == k;
      assert (a + b)[|a| + i].kind == k;
    }
  }

  lemma RollWeekEmits(cfg: Config, ctx: Context, bar: Bar, k: ActionKind)
    requires Inv(cfg, ctx)
    ensures Emits(RollWeek(ctx, bar).actions, k) <==>
            k == ExitWeek && Open(ctx) && ctx.week != Some(bar.stamp.Week())
  {
    RecordsEmit(bar, ExitWeek, Exited, ctx.center, ctx.active, k);
  }

  lemma EnterEmits(cfg: Config, ctx: Context, bar: Bar, k: ActionKind)
    requires Inv(cfg, ctx) && ctx.state == Idle && ctx.week == Some(bar.stamp.Week())
    ensures Emits(Enter(cfg, ctx, bar).actions, k) <==>
            (k == SkipEventWeek || k == DeployInitial) && Due(cfg, ctx, bar, k)
  {
    if WithinEntryWindow(cfg, bar.stamp) {
      if bar.regime.eventBlocked {
        if !ctx.eventSkipped {
          assert Enter(cfg, ctx, bar).actions[0].kind == SkipEventWeek;
        }
      } else if bar.center.Some? && bar.regime.IsRange() {
        var center := bar.center.value.price;
        var layers := InitialLayers(cfg, center, bar.stamp, bar.stamp.Week(), ctx.nextId);
        RecordsEmit(bar, DeployInitial, Active, Some(center), layers, k);
      }
    }
  }

  lemma ManageEmits(cfg: Config, ctx: Context, bar: Bar, k: ActionKind)
    requires Inv(cfg, ctx) && Held(ctx, bar)
    ensures Emits(Manage(cfg, ctx, bar).actions, k) <==> Due(cfg, ctx, bar, k)
  {
    var due := DueExit(cfg, ctx.deployedAt, bar.stamp);
    if bar.regime.IsTrend() {
      RecordsEmit(bar, Abort, Aborted, ctx.center, ctx.active, k);
    } else if due.Some? {
      RecordsEmit(bar, due.value, Exited, ctx.center, ctx.active, k);
    } else {
      var layer := MakeLayer(cfg, Adjustment, bar.price, bar.stamp, bar.stamp.Week(), ctx.nextId);
      RecordsEmit(bar, AddAdjustment, Adjusted, ctx.center, [layer], k);
    }
  }

  /** A bar takes an action of a kind exactly when that kind is due: the order of the tests included. */
  lemma StepTakesDueActions(cfg: Config, ctx: Context, bar: Bar, k: ActionKind)
    requires Inv(cfg, ctx)
    ensures Emits(Step(cfg, ctx, bar).actions, k) <==> Due(cfg, ctx, bar, k)
  {
    hide MakeLayer;
    var rolled := RollWeek(ctx, bar);
    RollWeekKeepsInv(cfg, ctx, bar);
    RollWeekEmits(cfg, ctx, bar, k);
    if rolled.ctx.state == Idle {
      EnterEmits(cfg, rolled.ctx, bar, k);
      EmitsConcat(rolled.actions, Enter(cfg, rolled.ctx, bar).actions, k);
    } else if rolled.ctx.active != [] {
      ManageEmits(cfg, rolled.ctx, bar, k);
      EmitsConcat(rolled.actions, Manage(cfg, rolled.ctx, bar).actions, k);
    }
  }

  ghost predicate Wings(cfg: Config, layer: Layer) {
    && layer.upper - layer.body == cfg.butterflyWidth
    && layer.body - layer.lower == cfg.butterflyWidth
    && layer.width == cfg.butterflyWidth
    && layer.center == layer.body
    && layer.dte == cfg.defaultDte
  }

  /** A deployment opens only butterflies of the configured width, in the order of their strikes: on the
      rounded center and on the rounded prices one spacing to each side of it. */
  lemma DeployedLayersSitOnTheirStrikes(cfg: Config, ctx: Context, bar: Bar)
    requires Inv(cfg, ctx) && Due(cfg, ctx, bar, DeployInitial)
    ensures var after := Step(cfg, ctx, bar).ctx;
            && after.state == Active
            && after.center == Some(bar.center.value.price)
            && after.deployedAt == Some(bar.stamp)
            && |after.active| == InitialCount(cfg)
            && forall i :: 0 <= i < |after.active| ==>
                 && Wings(cfg, after.active[i])
                 && after.active[i].kind == Initial
                 && after.active[i].createdAt == bar.stamp
                 && after.active[i].body ==
                    RoundStrike(bar.center.value.price + (i - 1) as real * cfg.centerSpacing, cfg.centerRounding)
  {
    hide RoundStrike;
    RollWeekKeepsInv(cfg, ctx, bar);
    var rolled := RollWeek(ctx, bar).ctx;
    var layers := InitialLayers(cfg, bar.center.value.price, bar.stamp, bar.stamp.Week(), ctx.nextId);
    assert Enter(cfg, rolled, bar).ctx.active == layers;
    forall i | 0 <= i < |layers|
      ensures Wings(cfg, layers[i]) && layers[i].kind == Initial && layers[i].createdAt == bar.stamp
      ensures layers[i].body ==
              RoundStrike(bar.center.value.price + (i - 1) as real * cfg.centerSpacing, cfg.centerRounding)
    {
      InitialLayerShape(cfg, bar.center.value.price, bar.stamp, bar.stamp.Week(), ctx.nextId, i);
    }
  }

  lemma InitialLayerShape(cfg: Config, center: real, stamp: Stamp, week: int, firstId: int, i: nat)
    requires i < 3
    ensures var layer := InitialLayer(cfg, center, stamp, week, firstId, i);
            && Wings(cfg, layer)
            && layer.body == RoundStrike(center + (i - 1) as real * cfg.centerSpacing, cfg.centerRounding)
  {
    var c := [center - cfg.centerSpacing, center, center + cfg.centerSpacing][i];
    assert c == center + (i - 1) as real * cfg.centerSpacing by {
      if i == 0 {
        assert (i - 1) as real * cfg.centerSpacing == -cfg.centerSpacing;
      }
    }
  }

  /** An adjustment adds one butterfly on the rounded price and leaves the others and the center alone. */
  lemma AdjustmentAddsOneLayer(cfg: Config, ctx: Context, bar: Bar)
    requires Inv(cfg, ctx) && Due(cfg, ctx, bar, AddAdjustment)
    ensures var after := Step(cfg, ctx, bar).ctx;
            && after.state == Adjusted
            && after.center == ctx.center
            && after.deployedAt == ctx.deployedAt
            && |after.active| == |ctx.active| + 1
            && after.active[..|ctx.active|] == ctx.active
            && var layer := after.active[|ctx.active|];
               && Wings(cfg, layer)
               && layer.kind == Adjustment
               && layer.createdAt == bar.stamp
               && layer.body == RoundStrike(bar.price, cfg.centerRounding)
  {
    hide RoundStrike;
    RollWeekKeepsInv(cfg, ctx, bar);
  }

  // ---------- Free bodies ----------

  /** A body that an open layer has is taken, and one that is more than a hundredth of a cent from all of them is
      free. */
  lemma TakenMeansNear(body: real, layers: seq<Layer>)
    ensures (exists i :: 0 <= i < |layers| && layers[i].body == body) ==> BodyTaken(body, layers)
    ensures BodyTaken(body, layers) ==> exists i :: 0 <= i < |layers| && -0.0001 <= layers[i].body - body <= 0.0001
  {
    hide RoundHalfEven;
    if i :| 0 <= i < |layers| && layers[i].body == body {
      assert BodyKey(layers[i].body) == BodyKey(body);
    }
    if i :| 0 <= i < |layers| && BodyKey(layers[i].body) == BodyKey(body) {
      SameKeysAreNear(layers[i].body, body);
    }
  }

  lemma SameKeysAreNear(a: real, b: real)
    requires BodyKey(a) == BodyKey(b)
    ensures -0.0001 <= a - b <= 0.0001
  {
    assert IsRounding(a * 10000.0, BodyKey(a)) && IsRounding(b * 10000.0, BodyKey(b));
  }

  /** Bodies two hundredths of a cent apart never share a key, so that a finer difference decides. */
  lemma KeysAreFine(body: real)
    ensures BodyKey(body) < BodyKey(body + 0.0002) <= BodyKey(body) + 3
  {
  }

  // ---------- Bodies of open layers ----------

  ghost predicate BodiesDistinct(layers: seq<Layer>) {
    forall i, j :: 0 <= i < j < |layers| ==> layers[i].body != layers[j].body
  }

  /** The spacing is more than half the rounding increment, or is half of it and the center is an odd multiple: ties go
      to even. A single body needs no spacing. */
  predicate SpacingSeparates(cfg: Config, k: int) {
    var half := cfg.centerRounding / 2.0;
    InitialCount(cfg) <= 1 || Abs(cfg.centerSpacing) > half || (Abs(cfg.centerSpacing) == half && k % 2 == 1)
  }

  /** On a center that is a multiple of the rounding increment this is exactly when the initial bodies differ. */
  lemma InitialBodiesDistinct(cfg: Config, k: int, stamp: Stamp, week: int, firstId: int)
    requires cfg.centerRounding > 0.0
    ensures BodiesDistinct(InitialLayers(cfg, Times(k, cfg.centerRounding), stamp, week, firstId))
       <==> SpacingSeparates(cfg, k)
  {
    var r, s := cfg.centerRounding, cfg.centerSpacing;
    var q := s / r;
    var low, high := RoundHalfEven(k as real - q), RoundHalfEven(k as real + q);
    var layers := InitialLayers(cfg, Times(k, r), stamp, week, firstId);
    var full := cfg.(maxActive := 3);
    var all := InitialLayers(full, Times(k, r), stamp, week, firstId);
    InitialBodies(full, k, stamp, week, firstId);
    FewerLayers(cfg, full, Times(k, r), stamp, week, firstId);
    hide RoundHalfEven, Times, InitialLayers, RoundStrike;
    TimesIsInjective(low, k, r);
    TimesIsInjective(high, k, r);
    TimesIsInjective(low, high, r);
    UpToThreeBodies(layers);
    SpacingAgainstHalf(s, r);
    ShiftedRoundings(k, q);
  }

  lemma FewerLayers(cfg: Config, full: Config, center: real, stamp: Stamp, week: int, firstId: int)
    requires full == cfg.(maxActive := 3)
    ensures var layers := InitialLayers(cfg, center, stamp, week, firstId);
            var all := InitialLayers(full, center, stamp, week, firstId);
            |layers| <= |all| == 3 && forall i :: 0 <= i < |layers| ==> layers[i].body == all[i].body
  {
    hide RoundStrike;
  }

  lemma UpToThreeBodies(layers: seq<Layer>)
    requires |layers| <= 3
    ensures BodiesDistinct(layers) <==>
            && (|layers| >= 2 ==> layers[0].body != layers[1].body)
            && (|layers| == 3 ==> layers[1].body != layers[2].body && layers[0].body != layers[2].body)
  {
  }

  lemma SpacingAgainstHalf(s: real, r: real)
    requires r > 0.0
    ensures Abs(s / r) > 0.5 <==> Abs(s) > r / 2.0
    ensures Abs(s / r) == 0.5 <==> Abs(s) == r / 2.0
  {
    NegativeQuotient(s, r);
    assert Abs(s / r) == Abs(s) / r || Abs(s / r) == -(s / r);
    HalfQuotient(s, r);
    HalfQuotient(-s, r);
  }

  lemma HalfQuotient(x: real, r: real)
    requires r > 0.0
    ensures x / r > 0.5 <==> x > r / 2.0
    ensures x / r == 0.5 <==> x == r / 2.0
  {
    var q := x / r;
    assert q * r == x;
    CompareScaled(q, 0.5, r);
  }

  lemma InitialBodies(cfg: Config, k: int, stamp: Stamp, week: int, firstId: int)
    requires cfg.centerRounding > 0.0 && cfg.maxActive >= 3
    ensures var r, q := cfg.centerRounding, cfg.centerSpacing / cfg.centerRounding;
            var layers := InitialLayers(cfg, Times(k, r), stamp, week, firstId);
            && |layers| == 3
            && layers[0].body == Times(RoundHalfEven(k as real - q), r)
            && layers[1].body == Times(k, r)
            && layers[2].body == Times(RoundHalfEven(k as real + q), r)
  {
    hide RoundStrike, RoundHalfEven, Times, InitialLayers;
    var r, s := cfg.centerRounding, cfg.centerSpacing;
    RoundedShift(k, s, r);
    RoundedShift(k, 0.0, r);
    RoundedShift(k, -s, r);
    NegativeQuotient(s, r);
    NoShift(k, r);
    BodiesOfInitialLayers(cfg, Times(k, r), stamp, week, firstId);
  }

  lemma NoShift(k: int, r: real)
    requires r > 0.0
    ensures RoundHalfEven(k as real - 0.0 / r) == k
  {
    assert 0.0 / r == 0.0;
    RoundingIsUnique(k as real, k);
  }

  lemma BodiesOfInitialLayers(cfg: Config, center: real, stamp: Stamp, week: int, firstId: int)
    requires cfg.maxActive >= 3
    ensures var layers := InitialLayers(cfg, center, stamp, week, firstId);
            && |layers| == 3
            && layers[0].body == RoundStrike(center - cfg.centerSpacing, cfg.centerRounding)
            && layers[1].body == RoundStrike(center - 0.0, cfg.centerRounding)
            && layers[2].body == RoundStrike(center - (-cfg.centerSpacing), cfg.centerRounding)
  {
    hide RoundStrike;
  }

  lemma RoundedShift(k: int, s: real, r: real)
    requires r > 0.0
    ensures RoundStrike(Times(k, r) - s, r) == Times(RoundHalfEven(k as real - s / r), r)
  {
    hide RoundHalfEven;
    QuotientOfShift(k, s, r);
  }

  lemma NegativeQuotient(s: real, r: real)
    requires r > 0.0
    ensures (-s) / r == -(s / r)
  {
    var p, q := (-s) / r, s / r;
    assert p * r == -s && q * r == s;
    Distribute(p, -q, r);
    assert (p + q) * r == 0.0;
  }

  lemma QuotientOfShift(k: int, s: real, r: real)
    requires r > 0.0
    ensures (Times(k, r) - s) / r == k as real - s / r
  {
    var x := (Times(k, r) - s) / r;
    assert x * r == Times(k, r) - s;
    Distribute(k as real, s / r, r);
    assert (s / r) * r == s;
  }

  lemma TimesIsInjective(a: int, b: int, r: real)
    requires r > 0.0
    ensures Times(a, r) == Times(b, r) <==> a == b
  {
    Distribute(a as real, b as real, r);
  }

  lemma CompareScaled(a: real, b: real, r: real)
    requires r > 0.0
    ensures (a > b <==> a * r > b * r) && (a == b <==> a * r == b * r)
  {
    Distribute(a, b, r);
  }

  lemma ShiftedRoundings(k: int, q: real)
    ensures var low, high := RoundHalfEven(k as real - q), RoundHalfEven(k as real + q);
            && (low != k <==> Abs(q) > 0.5 || (Abs(q) == 0.5 && k % 2 == 1))
            && (low != k <==> high != k)
            && (low != k ==> low != high)
  {
  }

  /** The center is rounded, and the spacing separates the bodies around it. */
  ghost predicate CenterSeparates(cfg: Config, center: real) {
    exists k: int :: center == Times(k, cfg.centerRounding) && SpacingSeparates(cfg, k)
  }

  lemma CenterDecidesBodies(cfg: Config, center: real, stamp: Stamp, week: int, firstId: int)
    requires cfg.centerRounding > 0.0 && IsMultiple(center, cfg.centerRounding)
    ensures BodiesDistinct(InitialLayers(cfg, center, stamp, week, firstId)) <==> CenterSeparates(cfg, center)
  {
    hide SpacingSeparates, BodiesDistinct, Times;
    var k: int :| center == Times(k, cfg.centerRounding);
    InitialBodiesDistinct(cfg, k, stamp, week, firstId);
    forall m: int | center == Times(m, cfg.centerRounding)
      ensures m == k
    {
      TimesIsInjective(m, k, cfg.centerRounding);
    }
  }

  /** The open layers after a bar, by whether it deploys. */
  lemma LayersOfDeployment(cfg: Config, ctx: Context, bar: Bar)
    requires Inv(cfg, ctx)
    ensures Due(cfg, ctx, bar, DeployInitial) ==>
              Step(cfg, ctx, bar).ctx.active
              == InitialLayers(cfg, bar.center.value.price, bar.stamp, bar.stamp.Week(), ctx.nextId)
    ensures !Due(cfg, ctx, bar, DeployInitial) ==>
              var after := Step(cfg, ctx, bar).ctx.active;
              var added := MakeLayer(cfg, Adjustment, bar.price, bar.stamp, bar.stamp.Week(), ctx.nextId);
              || after == []
              || after == ctx.active
              || (after == ctx.active + [added] && !BodyTaken(added.body, ctx.active))
  {
    hide RoundStrike, BusinessDays;
    RollWeekKeepsInv(cfg, ctx, bar);
    var rolled := RollWeek(ctx, bar).ctx;
    if rolled.state != Idle && rolled.active != [] {
      ManagedLayers(cfg, rolled, bar);
    }
  }

  lemma StepDecidesBodies(cfg: Config, ctx: Context, bar: Bar)
    requires Inv(cfg, ctx) && BodiesDistinct(ctx.active) && cfg.centerRounding > 0.0
    requires bar.center.Some? ==> IsMultiple(bar.center.value.price, cfg.centerRounding)
    ensures BodiesDistinct(Step(cfg, ctx, bar).ctx.active) <==>
            (Due(cfg, ctx, bar, DeployInitial) ==> CenterSeparates(cfg, bar.center.value.price))
  {
    hide Step, CenterSeparates, IsMultiple;
    LayersOfDeployment(cfg, ctx, bar);
    if Due(cfg, ctx, bar, DeployInitial) {
      CenterDecidesBodies(cfg, bar.center.value.price, bar.stamp, bar.stamp.Week(), ctx.nextId);
    }
  }

  /** If the bar deploys, it does around a center at which the spacing separates the bodies. */
  ghost predicate DeploysApartAt(cfg: Config, bars: seq<Bar>, i: nat)
    requires i < |bars|
  {
    Due(cfg, Run(cfg, bars[..i]).ctx, bars[i], DeployInitial) ==> CenterSeparates(cfg, bars[i].center.value.price)
  }

  ghost predicate DeploysApart(cfg: Config, bars: seq<Bar>) {
    forall i :: 0 <= i < |bars| ==> DeploysApartAt(cfg, bars, i)
  }

  ghost predicate DistinctAfter(cfg: Config, bars: seq<Bar>, n: nat)
    requires n <= |bars|
  {
    BodiesDistinct(Run(cfg, bars[..n]).ctx.active)
  }

  ghost predicate AlwaysDistinct(cfg: Config, bars: seq<Bar>) {
    forall n :: 0 <= n <= |bars| ==> DistinctAfter(cfg, bars, n)
  }

  /** When centers come rounded, as the estimator rounds them: no two open layers ever share a body if and only if the
      spacing separates the bodies of each deployment. Adjustments never take a body twice. */
  lemma {:induction false} OpenBodiesAreDistinct(cfg: Config, bars: seq<Bar>)
    requires cfg.centerRounding > 0.0
    requires forall i :: 0 <= i < |bars| && bars[i].center.Some? ==>
               IsMultiple(bars[i].center.value.price, cfg.centerRounding)
    ensures AlwaysDistinct(cfg, bars) <==> DeploysApart(cfg, bars)
  {
    hide Step, Due, CenterSeparates, BodiesDistinct, IsMultiple, AlwaysDistinct, DeploysApart;
    if bars == [] {
      NothingIsDistinct(cfg);
    } else {
      var n := |bars| - 1;
      OpenBodiesAreDistinct(cfg, bars[..n]);
      OneBarMore(cfg, bars);
      RunKeepsInv(cfg, bars[..n]);
      if AlwaysDistinct(cfg, bars[..n]) {
        AlwaysAfter(cfg, bars[..n], n);
        assert bars[..n][..n] == bars[..n];
        StepDecidesBodies(cfg, Run(cfg, bars[..n]).ctx, bars[n]);
        assert bars[..|bars|] == bars;
      }
    }
  }

  lemma NothingIsDistinct(cfg: Config)
    ensures AlwaysDistinct(cfg, []) && DeploysApart(cfg, [])
  {
  }

  lemma AlwaysAfter(cfg: Config, bars: seq<Bar>, n: nat)
    requires AlwaysDistinct(cfg, bars) && n <= |bars|
    ensures DistinctAfter(cfg, bars, n)
  {
  }

  lemma OneBarMore(cfg: Config, bars: seq<Bar>)
    requires bars != []
    ensures var n := |bars| - 1;
            && (AlwaysDistinct(cfg, bars) <==> AlwaysDistinct(cfg, bars[..n]) && DistinctAfter(cfg, bars, |bars|))
            && (DeploysApart(cfg, bars) <==> DeploysApart(cfg, bars[..n]) && DeploysApartAt(cfg, bars, n))
  {
    hide DistinctAfter, DeploysApartAt;
    var n := |bars| - 1;
    forall i | 0 <= i <= n
      ensures DistinctAfter(cfg, bars[..n], i) <==> DistinctAfter(cfg, bars, i)
      ensures i < n ==> (DeploysApartAt(cfg, bars[..n], i) <==> DeploysApartAt(cfg, bars, i))
    {
      PrefixIsAlike(cfg, bars, n, i);
    }
  }

  lemma PrefixIsAlike(cfg: Config, bars: seq<Bar>, n: nat, i: nat)
    requires i <= n <= |bars|
    ensures DistinctAfter(cfg, bars[..n], i) <==> DistinctAfter(cfg, bars, i)
    ensures i < n ==> (DeploysApartAt(cfg, bars[..n], i) <==> DeploysApartAt(cfg, bars, i))
  {
    hide Run, Due, CenterSeparates, BodiesDistinct;
    assert bars[..n][..i] == bars[..i];
  }
}
