/** The event branch of the weekly regime classifier, and what it means for whole runs. */
module WeeklyEvents {
  import opened Rounding
  import opened WeeklyModels
  import opened WeeklyStep
  import opened WeeklyInvariants
  import opened WeeklyRuns
  import opened WeeklySafety

  datatype RegimeConfig = RegimeConfig(
    lookback: int, skipEventWeeks: bool, eventDates: seq<int>,
    slopeLimit: real, momentumLimit: real, widthLimit: real)

  /** What the classifier measures on the sample that ends at a bar. */
  datatype Readings = Readings(
    sampleSize: nat, width: real, slope: real, momentum: real, breakoutUp: bool, breakoutDown: bool)

  /** Some event falls on a Monday to Friday of the week. */
  predicate IsEventWeek(week: int, dates: seq<int>) {
    exists i :: 0 <= i < |dates| && week <= dates[i] <= week + 4
  }

  function Classify(rc: RegimeConfig, stamp: Stamp, x: Readings): Snapshot {
    if x.sampleSize < Max(12, rc.lookback / 3) then Snapshot(Neutral, false)
    else
      var blocked := rc.skipEventWeeks && IsEventWeek(stamp.Week(), rc.eventDates);
      var regime :=
        if blocked then EventBlocked
        else if x.breakoutUp || x.slope >= rc.slopeLimit || x.momentum >= rc.momentumLimit then TrendUp
        else if x.breakoutDown || x.slope <= -rc.slopeLimit || x.momentum <= -rc.momentumLimit then TrendDown
        else if && x.width <= rc.widthLimit
                && Abs(x.slope) <= rc.slopeLimit
                && Abs(x.momentum) <= rc.momentumLimit then Range
        else Neutral;
      Snapshot(regime, blocked)
  }

  // ---------- What the classifier says ----------

  /** The sample is long enough to say anything. */
  predicate IsEnough(rc: RegimeConfig, x: Readings) {
    x.sampleSize >= 12 && x.sampleSize >= rc.lookback / 3
  }

  /** An event falls on one of the five weekdays of the week of the stamp. */
  ghost predicate HasEvent(rc: RegimeConfig, stamp: Stamp) {
    exists i :: 0 <= i < |rc.eventDates|
      && rc.eventDates[i] - rc.eventDates[i] % 7 == stamp.day - stamp.day % 7 && rc.eventDates[i] % 7 <= 4
  }

  predicate GoesUp(rc: RegimeConfig, x: Readings) {
    x.breakoutUp || x.slope >= rc.slopeLimit || x.momentum >= rc.momentumLimit
  }

  predicate GoesDown(rc: RegimeConfig, x: Readings) {
    x.breakoutDown || x.slope <= -rc.slopeLimit || x.momentum <= -rc.momentumLimit
  }

  lemma EventIsInWeek(week: int, date: int)
    requires week % 7 == 0
    ensures week <= date <= week + 4 <==> date - date % 7 == week && date % 7 <= 4
  {
  }

  lemma EventWeekHasEvent(rc: RegimeConfig, stamp: Stamp)
    ensures IsEventWeek(stamp.Week(), rc.eventDates) <==> HasEvent(rc, stamp)
  {
    var week := stamp.Week();
    assert week % 7 == 0;
    forall date: int {
      EventIsInWeek(week, date);
    }
  }

  /** Each answer of the classifier, in both directions: with too short a sample it is neutral; event weeks, when they
      are skipped, come before everything else; a rise comes before a fall; a range is narrow and calm; the rest is
      neutral. */
  lemma RegimesMean(rc: RegimeConfig, stamp: Stamp, x: Readings)
    ensures var s := Classify(rc, stamp, x);
            var free := IsEnough(rc, x) && !(rc.skipEventWeeks && HasEvent(rc, stamp));
            && (s.eventBlocked <==> IsEnough(rc, x) && rc.skipEventWeeks && HasEvent(rc, stamp))
            && (s.regime == EventBlocked <==> s.eventBlocked)
            && (s.regime == TrendUp <==> free && GoesUp(rc, x))
            && (s.regime == TrendDown <==> free && !GoesUp(rc, x) && GoesDown(rc, x))
            && (s.regime == Range <==>
                  && free && !GoesUp(rc, x) && !GoesDown(rc, x) && x.width <= rc.widthLimit
                  && -rc.slopeLimit <= x.slope <= rc.slopeLimit
                  && -rc.momentumLimit <= x.momentum <= rc.momentumLimit)
  {
    hide IsEventWeek, HasEvent;
    EventWeekHasEvent(rc, stamp);
  }

  /** A run of classified bars aborts exactly on the bars of an open corridor's week whose readings rise or fall, with
      enough of them and outside skipped event weeks; and it deploys only on narrow and calm ones. */
  lemma ActionsFollowReadings(
      cfg: Config, rc: RegimeConfig, bars: seq<Bar>, readings: seq<Readings>, i: nat)
    requires Classified(rc, bars, readings) && i < |bars|
    ensures var ctx, x := Run(cfg, bars[..i]).ctx, readings[i];
            var actions := Step(cfg, ctx, bars[i]).actions;
            var free := IsEnough(rc, x) && !(rc.skipEventWeeks && HasEvent(rc, bars[i].stamp));
            && (Emits(actions, Abort) <==> Held(ctx, bars[i]) && free && (GoesUp(rc, x) || GoesDown(rc, x)))
            && (Emits(actions, DeployInitial) ==>
                  free && !GoesUp(rc, x) && !GoesDown(rc, x) && x.width <= rc.widthLimit)
  {
    hide Classify, HasEvent, Step, Run, Inv;
    var ctx := Run(cfg, bars[..i]).ctx;
    RunKeepsInv(cfg, bars[..i]);
    RegimesMean(rc, bars[i].stamp, readings[i]);
    StepTakesDueActions(cfg, ctx, bars[i], Abort);
    StepTakesDueActions(cfg, ctx, bars[i], DeployInitial);
  }

  // ---------- Event weeks ----------

  ghost predicate Classified(rc: RegimeConfig, bars: seq<Bar>, readings: seq<Readings>) {
    && |readings| == |bars|
    && forall i :: 0 <= i < |bars| ==> bars[i].regime == Classify(rc, bars[i].stamp, readings[i])
  }

  /** Every opening record lies outside event weeks, and every skip record inside one. */
  ghost predicate RespectsEvents(rc: RegimeConfig, log: seq<Action>) {
    forall i :: 0 <= i < |log| ==>
      && (IsOpening(log[i].kind) ==> !IsEventWeek(log[i].week, rc.eventDates))
      && (log[i].kind == SkipEventWeek ==> IsEventWeek(log[i].week, rc.eventDates))
  }

  ghost predicate OpenOutsideEvents(rc: RegimeConfig, ctx: Context) {
    Open(ctx) ==> ctx.week.Some? && !IsEventWeek(ctx.week.value, rc.eventDates)
  }

  lemma StepRespectsEvents(cfg: Config, rc: RegimeConfig, ctx: Context, bar: Bar, x: Readings)
    requires Inv(cfg, ctx) && rc.skipEventWeeks && bar.regime == Classify(rc, bar.stamp, x)
    requires OpenOutsideEvents(rc, ctx)
    ensures RespectsEvents(rc, Step(cfg, ctx, bar).actions)
    ensures OpenOutsideEvents(rc, Step(cfg, ctx, bar).ctx)
  {
    var actions := Step(cfg, ctx, bar).actions;
    StepRecordsAreOfBar(cfg, ctx, bar);
    forall i | 0 <= i < |actions|
      ensures IsOpening(actions[i].kind) ==> !IsEventWeek(actions[i].week, rc.eventDates)
      ensures actions[i].kind == SkipEventWeek ==> IsEventWeek(actions[i].week, rc.eventDates)
    {
      StepTakesDueActions(cfg, ctx, bar, actions[i].kind);
      assert Emits(actions, actions[i].kind);
    }
    StepKeepsInv(cfg, ctx, bar);
    OpenAfterStep(cfg, ctx, bar);
  }

  lemma OpenAfterStep(cfg: Config, ctx: Context, bar: Bar)
    requires Inv(cfg, ctx)
    ensures Open(Step(cfg, ctx, bar).ctx) ==> Held(ctx, bar) || bar.regime.IsRange()
  {
    RollWeekKeepsInv(cfg, ctx, bar);
    var rolled := RollWeek(ctx, bar).ctx;
    if rolled.state == Idle && !bar.regime.IsRange() {
      assert Enter(cfg, rolled, bar).ctx.active == [];
    }
  }

  /** With event weeks skipped, a run of classified bars opens nothing in an event week, and records a skip
      only in event weeks. */
  lemma {:induction false} EventWeeksAreNotTraded(
      cfg: Config, rc: RegimeConfig, bars: seq<Bar>, readings: seq<Readings>)
    requires rc.skipEventWeeks && Classified(rc, bars, readings)
    ensures RespectsEvents(rc, Run(cfg, bars).actions)
    ensures OpenOutsideEvents(rc, Run(cfg, bars).ctx)
  {
    if bars != [] {
      var before := bars[..|bars| - 1];
      EventWeeksAreNotTraded(cfg, rc, before, readings[..|bars| - 1]);
      RunKeepsInv(cfg, before);
      StepRespectsEvents(cfg, rc, Run(cfg, before).ctx, bars[|bars| - 1], readings[|bars| - 1]);
    }
  }
}
