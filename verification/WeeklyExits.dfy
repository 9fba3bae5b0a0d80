/** The two exits that depend on how long a corridor is held: exactly when any run takes them. */
module WeeklyExits {
  import opened Calendar
  import opened Options
  import opened Rounding
  import opened WeeklyModels
  import opened WeeklyStep
  import opened WeeklyInvariants
  import opened WeeklyRuns
  import opened WeeklySafety

  // ---------- Exits that no run takes ----------

  lemma {:induction false} BusinessDaysOfOneWeek(first: int, last: int)
    requires first - first % 7 == last - last % 7
    ensures BusinessDays(first, last) ==
            (if first % 7 <= Min(last % 7, 4) then Min(last % 7, 4) - first % 7 + 1 else 0)
    decreases last - first
  {
    if first < last {
      assert (first + 1) % 7 == first % 7 + 1;
      BusinessDaysOfOneWeek(first + 1, last);
    } else if first == last {
      assert BusinessDays(first + 1, last) == 0;
    } else {
      assert first % 7 > last % 7;
    }
  }

  lemma ElapsedDaysOfOneWeek(since: Stamp, now: Stamp)
    requires since.Week() == now.Week()
    ensures ElapsedDays(since, now) <= 7 - since.Weekday()
    ensures since.clock >= HOUR_SECONDS ==> ElapsedDays(since, now) <= 6 - since.Weekday()
  {
    assert now.day - since.day <= 6 - since.Weekday();
    var span := now.Instant() - since.Instant();
    assert span <= (now.day - since.day) * DAY_SECONDS + now.clock - since.clock + HOUR_SECONDS;
    assert since.clock >= HOUR_SECONDS ==> span < (7 - since.Weekday()) * DAY_SECONDS;
    assert span < (8 - since.Weekday()) * DAY_SECONDS;
  }

  /** The first weekday on which a corridor can be deployed. */
  function FirstEntryDay(cfg: Config): int {
    Max(0, cfg.entryStartWeekday)
  }

  /** What a run emits was due on one of its bars. */
  lemma {:induction false} EmittedWasDue(cfg: Config, bars: seq<Bar>, k: ActionKind) returns (i: nat)
    requires Emits(Run(cfg, bars).actions, k)
    ensures i < |bars| && Due(cfg, Run(cfg, bars[..i]).ctx, bars[i], k)
  {
    hide Step, Due;
    var n := |bars| - 1;
    var ctx := Run(cfg, bars[..n]).ctx;
    RunKeepsInv(cfg, bars[..n]);
    StepTakesDueActions(cfg, ctx, bars[n], k);
    EmitsConcat(Run(cfg, bars[..n]).actions, Step(cfg, ctx, bars[n]).actions, k);
    if Emits(Run(cfg, bars[..n]).actions, k) {
      i := EmittedWasDue(cfg, bars[..n], k);
      assert bars[..n][..i] == bars[..i];
    } else {
      i := n;
    }
  }

  /** A corridor is never held into another week. So from the first entry day on it is held for five business days of
      the week at the most, less one for each day the entry window opens after Monday; and the days to expiry run
      down by six less those days, or by one more when the window opens within an hour of midnight. */
  lemma HoldAndDteExitsAreNeverTaken(cfg: Config, bars: seq<Bar>)
    ensures cfg.maxHoldDays > Max(0, 5 - FirstEntryDay(cfg)) ==> !Emits(Run(cfg, bars).actions, ExitHold)
    ensures cfg.defaultDte > cfg.minRemainingDte + 6 - FirstEntryDay(cfg) && cfg.tradingStart >= HOUR_SECONDS ==>
            !Emits(Run(cfg, bars).actions, ExitDte)
    ensures cfg.minRemainingDte < 0 || cfg.defaultDte > cfg.minRemainingDte + 7 - FirstEntryDay(cfg) ==>
            !Emits(Run(cfg, bars).actions, ExitDte)
  {
    hide Run, Emits, Inv, HeldTooLong, DteIsLow;
    if Emits(Run(cfg, bars).actions, ExitHold) {
      var i := EmittedWasDue(cfg, bars, ExitHold);
      RunKeepsInv(cfg, bars[..i]);
      HeldBriefly(cfg, Run(cfg, bars[..i]).ctx, bars[i]);
    }
    if Emits(Run(cfg, bars).actions, ExitDte) {
      var i := EmittedWasDue(cfg, bars, ExitDte);
      RunKeepsInv(cfg, bars[..i]);
      HeldBriefly(cfg, Run(cfg, bars[..i]).ctx, bars[i]);
    }
  }

  lemma HeldBriefly(cfg: Config, ctx: Context, bar: Bar)
    requires Inv(cfg, ctx) && Held(ctx, bar)
    ensures cfg.maxHoldDays > Max(0, 5 - FirstEntryDay(cfg)) ==> !HeldTooLong(cfg, ctx, bar)
    ensures cfg.defaultDte > cfg.minRemainingDte + 6 - FirstEntryDay(cfg) && cfg.tradingStart >= HOUR_SECONDS ==>
            !DteIsLow(cfg, ctx, bar)
    ensures cfg.minRemainingDte < 0 || cfg.defaultDte > cfg.minRemainingDte + 7 - FirstEntryDay(cfg) ==>
            !DteIsLow(cfg, ctx, bar)
  {
    hide BusinessDays, ElapsedDays;
    var since := ctx.deployedAt.value;
    assert since.Weekday() >= FirstEntryDay(cfg) && since.clock >= cfg.tradingStart;
    BusinessDaysOfOneWeek(since.day, bar.stamp.day);
    ElapsedDaysOfOneWeek(since, bar.stamp);
  }

  lemma DefaultsNeverTakeHoldOrDteExits(bars: seq<Bar>)
    ensures !Emits(Run(DEFAULT_CONFIG, bars).actions, ExitHold) && !Emits(Run(DEFAULT_CONFIG, bars).actions, ExitDte)
  {
    HoldAndDteExitsAreNeverTaken(DEFAULT_CONFIG, bars);
  }

  /** From an open corridor, a holding limit of five days less the weekday of its deployment is met from Friday on, and
      a margin of six days to expiry less that weekday is used up on Sunday. */
  lemma HoldAndDteBoundsAreSharp(cfg: Config, ctx: Context, bar: Bar)
    requires Inv(cfg, ctx) && Held(ctx, bar) && !bar.regime.IsTrend()
    ensures var since := ctx.deployedAt.value;
            && cfg.maxHoldDays <= Max(0, 5 - since.Weekday()) && Max(4, since.Weekday()) <= bar.stamp.Weekday()
            && !DteIsLow(cfg, ctx, bar)
            ==> Emits(Step(cfg, ctx, bar).actions, ExitHold)
    ensures var since := ctx.deployedAt.value;
            && 0 <= cfg.minRemainingDte && cfg.defaultDte <= cfg.minRemainingDte + 6 - since.Weekday()
            && bar.stamp.Weekday() == 6 && bar.stamp.clock >= since.clock && bar.stamp.offset == since.offset
            ==> Emits(Step(cfg, ctx, bar).actions, ExitDte)
  {
    hide Step, BusinessDays;
    StepTakesDueActions(cfg, ctx, bar, ExitHold);
    StepTakesDueActions(cfg, ctx, bar, ExitDte);
    BusinessDaysOfOneWeek(ctx.deployedAt.value.day, bar.stamp.day);
  }

  // ---------- Exactly when an exit is ever taken ----------

  /** The first and the last second of a day at which the entry window is open. */
  function EntryOpens(cfg: Config): int {
    Max(0, cfg.tradingStart)
  }

  function EntryCloses(cfg: Config): int {
    Min(DAY_SECONDS - 1, cfg.tradingEnd)
  }

  /** There is a moment at which a corridor can be deployed; then there is one on the first entry day. */
  predicate CanEnter(cfg: Config) {
    && FirstEntryDay(cfg) <= Min(6, cfg.entryEndWeekday)
    && EntryOpens(cfg) <= EntryCloses(cfg)
    && cfg.maxActive > 0
  }

  /** After the first moment of entry the week has another second. */
  predicate HasLaterSecond(cfg: Config) {
    FirstEntryDay(cfg) < 6 || EntryOpens(cfg) < DAY_SECONDS - 1
  }

  /** The margin to expiry can be used up by the end of the week; over a change to winter time the week is an hour
      longer. */
  predicate DteRunsOut(cfg: Config) {
    && 0 <= cfg.minRemainingDte
    && cfg.defaultDte <=
       cfg.minRemainingDte + (if EntryOpens(cfg) < HOUR_SECONDS then 7 else 6) - FirstEntryDay(cfg)
  }

  /** The fewest whole days after which the holding limit is reached: the last day starts at midnight, and an entry
      later than midnight makes the first one incomplete. */
  function LeastHold(cfg: Config): int {
    Max(0, cfg.maxHoldDays - (if cfg.tradingEnd > 0 then 2 else 1))
  }

  /** The holding limit can be reached in the week, and before the margin to expiry is used up. */
  predicate HoldRunsOut(cfg: Config) {
    && cfg.maxHoldDays <= Max(0, 5 - FirstEntryDay(cfg))
    && Max(0, cfg.defaultDte - LeastHold(cfg)) > cfg.minRemainingDte
  }

  /** New York changes its clocks on Sundays between one and two o'clock. */
  ghost predicate ClocksAgree(bars: seq<Bar>) {
    forall i, j :: 0 <= i < |bars| && 0 <= j < |bars| ==> SameClock(bars[i].stamp, bars[j].stamp)
  }

  predicate BeforeChange(s: Stamp) {
    s.Weekday() < 6 || s.clock < HOUR_SECONDS
  }

  predicate AfterChange(s: Stamp) {
    s.Weekday() == 6 && s.clock >= 2 * HOUR_SECONDS
  }

  predicate SameClock(a: Stamp, b: Stamp) {
    a.Week() == b.Week() && ((BeforeChange(a) && BeforeChange(b)) || (AfterChange(a) && AfterChange(b))) ==>
      a.offset == b.offset
  }

  /** Each bar is later than the one before it. */
  ghost predicate StampsRise(bars: seq<Bar>) {
    forall i, j :: 0 <= i < j < |bars| ==> IsLater(bars[j].stamp, bars[i].stamp)
  }

  predicate IsLater(b: Stamp, a: Stamp) {
    a.Instant() < b.Instant() && a.day <= b.day
  }

  ghost predicate IsEverTaken(cfg: Config, k: ActionKind) {
    exists bars: seq<Bar> :: ClocksAgree(bars) && StampsRise(bars) && Emits(Run(cfg, bars).actions, k)
  }

  /** The same without regard to clock changes and to the order of bars. */
  ghost predicate IsTakenOnAnyClock(cfg: Config, k: ActionKind) {
    exists bars: seq<Bar> :: Emits(Run(cfg, bars).actions, k)
  }

  /** A range bar on the first entry day of week zero. */
  function EntryBar(cfg: Config, clock: int, offset: int): Bar
    requires CanEnter(cfg) && RawStamp(FirstEntryDay(cfg), clock, offset).Valid()
  {
    Bar("SPX", RawStamp(FirstEntryDay(cfg), clock, offset), 5000.0, Snapshot(Range, false),
        Some(Center(5000.0, 4950.0, 5050.0)))
  }

  /** A bar without a trend on a day of that week. */
  function LaterBar(day: int, clock: int, offset: int): Bar
    requires RawStamp(day, clock, offset).Valid()
  {
    Bar("SPX", RawStamp(day, clock, offset), 5000.0, Snapshot(Neutral, false), None)
  }

  lemma EntryBarDeploys(cfg: Config, a: Bar)
    requires CanEnter(cfg) && Due(cfg, INITIAL_CONTEXT, a, DeployInitial)
    ensures var ctx := Run(cfg, [a]).ctx;
            Inv(cfg, ctx) && Open(ctx) && ctx.deployedAt == Some(a.stamp) && ctx.week == Some(a.stamp.Week())
  {
    hide Step;
    assert [a][..0] == [];
    RunKeepsInv(cfg, [a]);
    InitialContextIsGood(cfg);
    DeployedLayersSitOnTheirStrikes(cfg, INITIAL_CONTEXT, a);
  }

  lemma SecondBarEmits(cfg: Config, a: Bar, b: Bar, k: ActionKind)
    requires Emits(Step(cfg, Run(cfg, [a]).ctx, b).actions, k)
    ensures Emits(Run(cfg, [a, b]).actions, k)
  {
    hide Step, Emits;
    assert [a, b][..1] == [a];
    EmitsConcat(Run(cfg, [a]).actions, Step(cfg, Run(cfg, [a]).ctx, b).actions, k);
  }

  /** A second bar in the week of a deployment takes the exit that is due. */
  lemma SecondBarExits(cfg: Config, a: Bar, b: Bar)
    requires CanEnter(cfg) && Due(cfg, INITIAL_CONTEXT, a, DeployInitial)
    requires a.stamp.Week() == b.stamp.Week() && !b.regime.IsTrend()
    ensures RemainingDte(cfg, a.stamp, b.stamp) <= cfg.minRemainingDte ==> Emits(Run(cfg, [a, b]).actions, ExitDte)
    ensures RemainingDte(cfg, a.stamp, b.stamp) > cfg.minRemainingDte
            && BusinessDays(a.stamp.day, b.stamp.day) >= cfg.maxHoldDays ==>
            Emits(Run(cfg, [a, b]).actions, ExitHold)
  {
    hide Step, Emits, Run, Inv, BusinessDays, RemainingDte;
    var ctx := Run(cfg, [a]).ctx;
    EntryBarDeploys(cfg, a);
    StepTakesDueActions(cfg, ctx, b, ExitDte);
    StepTakesDueActions(cfg, ctx, b, ExitHold);
    if RemainingDte(cfg, a.stamp, b.stamp) <= cfg.minRemainingDte {
      SecondBarEmits(cfg, a, b, ExitDte);
    } else if BusinessDays(a.stamp.day, b.stamp.day) >= cfg.maxHoldDays {
      SecondBarEmits(cfg, a, b, ExitHold);
    }
  }

  /** Entering as soon as the window opens, in summer time, and the last second of Sunday, in winter time. */
  function DteRun(cfg: Config): seq<Bar>
    requires CanEnter(cfg)
  {
    var changed := FirstEntryDay(cfg) == 6 && EntryOpens(cfg) >= 2 * HOUR_SECONDS;
    [EntryBar(cfg, EntryOpens(cfg), if changed then 5 * HOUR_SECONDS else 4 * HOUR_SECONDS),
     LaterBar(6, DAY_SECONDS - 1, 5 * HOUR_SECONDS)]
  }

  /** For a limit of a day or less, the first second of the entry window and the next one; otherwise the last second of
      the window and midnight of the last day of the holding limit. */
  function HoldRun(cfg: Config): seq<Bar>
    requires CanEnter(cfg) && HasLaterSecond(cfg) && cfg.maxHoldDays <= Max(0, 5 - FirstEntryDay(cfg))
  {
    var day, opens, winter := FirstEntryDay(cfg), EntryOpens(cfg), 5 * HOUR_SECONDS;
    if cfg.maxHoldDays > 1 then
      [EntryBar(cfg, EntryCloses(cfg), winter), LaterBar(day + cfg.maxHoldDays - 1, 0, winter)]
    else if opens < DAY_SECONDS - 1 then [EntryBar(cfg, opens, winter), LaterBar(day, opens + 1, winter)]
    else [EntryBar(cfg, opens, winter), LaterBar(day + 1, 0, winter)]
  }

  lemma DteIsUsedUp(cfg: Config)
    requires CanEnter(cfg) && DteRunsOut(cfg)
    ensures RemainingDte(cfg, DteRun(cfg)[0].stamp, DteRun(cfg)[1].stamp) <= cfg.minRemainingDte
  {
    var opens, days := EntryOpens(cfg), 6 - FirstEntryDay(cfg);
    var a, b := DteRun(cfg)[0].stamp, DteRun(cfg)[1].stamp;
    assert b.Instant() - a.Instant() == days * DAY_SECONDS + (DAY_SECONDS - 1 - opens + b.offset - a.offset);
  }

  lemma HoldIsUsedUp(cfg: Config)
    requires CanEnter(cfg) && HasLaterSecond(cfg) && HoldRunsOut(cfg)
    ensures var a, b := HoldRun(cfg)[0].stamp, HoldRun(cfg)[1].stamp;
            BusinessDays(a.day, b.day) >= cfg.maxHoldDays && RemainingDte(cfg, a, b) > cfg.minRemainingDte
  {
    hide BusinessDays;
    var a, b := HoldRun(cfg)[0].stamp, HoldRun(cfg)[1].stamp;
    BusinessDaysOfOneWeek(a.day, b.day);
  }

  lemma RunsAreReal(cfg: Config)
    requires CanEnter(cfg) && HasLaterSecond(cfg)
    ensures ClocksAgree(DteRun(cfg)) && StampsRise(DteRun(cfg))
    ensures cfg.maxHoldDays <= Max(0, 5 - FirstEntryDay(cfg)) ==> ClocksAgree(HoldRun(cfg)) && StampsRise(HoldRun(cfg))
  {
  }

  /** Where the exits can be taken, a run of two bars takes them. */
  lemma HoldAndDteBoundsAreReached(cfg: Config)
    requires CanEnter(cfg)
    ensures DteRunsOut(cfg) ==> Emits(Run(cfg, DteRun(cfg)).actions, ExitDte)
    ensures HasLaterSecond(cfg) && HoldRunsOut(cfg) ==> Emits(Run(cfg, HoldRun(cfg)).actions, ExitHold)
  {
    hide Emits, Run, BusinessDays, RemainingDte, LeastHold;
    if DteRunsOut(cfg) {
      DteIsUsedUp(cfg);
      SecondBarExits(cfg, DteRun(cfg)[0], DteRun(cfg)[1]);
    }
    if HasLaterSecond(cfg) && HoldRunsOut(cfg) {
      HoldIsUsedUp(cfg);
      SecondBarExits(cfg, HoldRun(cfg)[0], HoldRun(cfg)[1]);
    }
  }

  lemma ElapsedDaysAtLeast(since: Stamp, now: Stamp)
    ensures since.offset == now.offset ==> ElapsedDays(since, now) >= now.day - since.day - 1
    ensures since.offset == now.offset && since.clock == 0 ==> ElapsedDays(since, now) >= now.day - since.day
    ensures since.clock <= DAY_SECONDS - HOUR_SECONDS ==> ElapsedDays(since, now) >= now.day - since.day - 1
    ensures ElapsedDays(since, now) >= Max(0, now.day - since.day - 2)
  {
    var days, span := now.day - since.day, now.Instant() - since.Instant();
    assert span == days * DAY_SECONDS + now.clock - since.clock + now.offset - since.offset;
  }

  /** A corridor cannot be held to its limit in fewer days. */
  lemma HoldTakesTime(cfg: Config, ctx: Context, bar: Bar)
    requires Inv(cfg, ctx) && Held(ctx, bar) && HeldTooLong(cfg, ctx, bar)
    requires SameClock(ctx.deployedAt.value, bar.stamp) || 0 < cfg.tradingEnd <= DAY_SECONDS - HOUR_SECONDS
    ensures ElapsedDays(ctx.deployedAt.value, bar.stamp) >= LeastHold(cfg)
  {
    hide BusinessDays, ElapsedDays;
    var since := ctx.deployedAt.value;
    BusinessDaysOfOneWeek(since.day, bar.stamp.day);
    ElapsedDaysAtLeast(since, bar.stamp);
  }

  /** An open corridor was deployed on one of the bars. */
  lemma {:induction false} DeployedOnABar(cfg: Config, bars: seq<Bar>)
    ensures var ctx := Run(cfg, bars).ctx;
            Open(ctx) ==> exists i :: 0 <= i < |bars| && ctx.deployedAt == Some(bars[i].stamp)
  {
    hide Step;
    if bars != [] {
      var n := |bars| - 1;
      DeployedOnABar(cfg, bars[..n]);
      StepKeepsDeployment(cfg, Run(cfg, bars[..n]).ctx, bars[n]);
      var before := Run(cfg, bars[..n]).ctx;
      if Open(before) {
        var i :| 0 <= i < n && before.deployedAt == Some(bars[..n][i].stamp);
        assert bars[i] == bars[..n][i];
      }
    }
  }

  lemma StepKeepsDeployment(cfg: Config, ctx: Context, bar: Bar)
    ensures var after := Step(cfg, ctx, bar).ctx;
            Open(after) ==> after.deployedAt == Some(bar.stamp) || (Open(ctx) && after.deployedAt == ctx.deployedAt)
  {
    hide RoundStrike, BusinessDays, Records, InitialLayers, MakeLayer, ElapsedDays, DueExit;
  }

  lemma HeldMeansEntered(cfg: Config, ctx: Context, bar: Bar)
    requires Inv(cfg, ctx) && Held(ctx, bar)
    ensures CanEnter(cfg) && EntryOpens(cfg) <= ctx.deployedAt.value.clock
  {
  }

  /** In the last second of a week nothing is later. */
  lemma HeldNeedsLaterSecond(cfg: Config, ctx: Context, bar: Bar)
    requires Inv(cfg, ctx) && Held(ctx, bar)
    requires SameClock(ctx.deployedAt.value, bar.stamp) && IsLater(bar.stamp, ctx.deployedAt.value)
    ensures HasLaterSecond(cfg)
  {
  }

  /** An exit needs a configuration that can enter, and a limit that can be reached. */
  lemma ExitsNeedTheirLimits(cfg: Config, bars: seq<Bar>)
    ensures Emits(Run(cfg, bars).actions, ExitDte) ==> CanEnter(cfg) && DteRunsOut(cfg)
    ensures Emits(Run(cfg, bars).actions, ExitHold)
            && (ClocksAgree(bars) || 0 < cfg.tradingEnd <= DAY_SECONDS - HOUR_SECONDS) ==>
            CanEnter(cfg) && HoldRunsOut(cfg)
    ensures ClocksAgree(bars) && StampsRise(bars)
            && (Emits(Run(cfg, bars).actions, ExitDte) || Emits(Run(cfg, bars).actions, ExitHold)) ==>
            HasLaterSecond(cfg)
  {
    hide Run, Emits, Inv, HeldTooLong, ElapsedDays, LeastHold, IsLater, SameClock, HasLaterSecond;
    HoldAndDteExitsAreNeverTaken(cfg, bars);
    if Emits(Run(cfg, bars).actions, ExitDte) {
      var i := EmittedWasDue(cfg, bars, ExitDte);
      RunKeepsInv(cfg, bars[..i]);
      var ctx := Run(cfg, bars[..i]).ctx;
      HeldMeansEntered(cfg, ctx, bars[i]);
      DeployedOnABar(cfg, bars[..i]);
      if ClocksAgree(bars) && StampsRise(bars) {
        HeldNeedsLaterSecond(cfg, ctx, bars[i]);
      }
    }
    if Emits(Run(cfg, bars).actions, ExitHold) {
      var i := EmittedWasDue(cfg, bars, ExitHold);
      var ctx := Run(cfg, bars[..i]).ctx;
      RunKeepsInv(cfg, bars[..i]);
      HeldMeansEntered(cfg, ctx, bars[i]);
      DeployedOnABar(cfg, bars[..i]);
      if ClocksAgree(bars) || 0 < cfg.tradingEnd <= DAY_SECONDS - HOUR_SECONDS {
        HoldTakesTime(cfg, ctx, bars[i]);
      }
      if ClocksAgree(bars) && StampsRise(bars) {
        HeldNeedsLaterSecond(cfg, ctx, bars[i]);
      }
    }
  }

  /** Exactly when some run takes EXIT_DTE, and exactly when some run takes EXIT_HOLD, for every configuration. */
  lemma ExitsAreTakenIff(cfg: Config)
    ensures IsEverTaken(cfg, ExitDte) <==> CanEnter(cfg) && HasLaterSecond(cfg) && DteRunsOut(cfg)
    ensures IsEverTaken(cfg, ExitHold) <==> CanEnter(cfg) && HasLaterSecond(cfg) && HoldRunsOut(cfg)
  {
    hide Run, Emits, ClocksAgree, StampsRise, DteRunsOut, CanEnter, HasLaterSecond, DteRun, HoldRun, LeastHold;
    if CanEnter(cfg) {
      HoldAndDteBoundsAreReached(cfg);
      if HasLaterSecond(cfg) {
        RunsAreReal(cfg);
      }
    }
    forall bars: seq<Bar> | ClocksAgree(bars) && StampsRise(bars)
      ensures Emits(Run(cfg, bars).actions, ExitDte) ==> CanEnter(cfg) && HasLaterSecond(cfg) && DteRunsOut(cfg)
      ensures Emits(Run(cfg, bars).actions, ExitHold) ==> CanEnter(cfg) && HasLaterSecond(cfg) && HoldRunsOut(cfg)
    {
      ExitsNeedTheirLimits(cfg, bars);
    }
  }

  lemma ClosingLeavesTime(cfg: Config)
    requires CanEnter(cfg)
    ensures cfg.tradingEnd <= DAY_SECONDS - HOUR_SECONDS ==> HasLaterSecond(cfg)
  {
  }

  /** The same for bars on any clocks and in any order, where for EXIT_HOLD the entry window closes an hour before
      midnight. */
  lemma ExitsAreTakenOnAnyClockIff(cfg: Config)
    ensures IsTakenOnAnyClock(cfg, ExitDte) <==> CanEnter(cfg) && DteRunsOut(cfg)
    ensures 0 < cfg.tradingEnd <= DAY_SECONDS - HOUR_SECONDS ==>
            (IsTakenOnAnyClock(cfg, ExitHold) <==> CanEnter(cfg) && HoldRunsOut(cfg))
  {
    hide Run, Emits, ClocksAgree, StampsRise, DteRunsOut, CanEnter, HasLaterSecond, DteRun, HoldRun, LeastHold;
    if CanEnter(cfg) {
      HoldAndDteBoundsAreReached(cfg);
      ClosingLeavesTime(cfg);
    }
    forall bars: seq<Bar>
      ensures Emits(Run(cfg, bars).actions, ExitDte) ==> CanEnter(cfg) && DteRunsOut(cfg)
      ensures Emits(Run(cfg, bars).actions, ExitHold) && 0 < cfg.tradingEnd <= DAY_SECONDS - HOUR_SECONDS ==>
              CanEnter(cfg) && HoldRunsOut(cfg)
    {
      ExitsNeedTheirLimits(cfg, bars);
    }
  }
}
