/** What a run says over all weeks, for bars in any order: its account by stretches. */
module WeeklyTotals {
  import opened Rounding
  import Sets
  import opened WeeklyModels
  import opened WeeklyStep
  import opened WeeklyInvariants
  import opened WeeklyRuns
  import opened WeeklyTallies
  import opened WeeklyStretches
  import opened WeeklyCounts

  // ---------- Weeks traded, weeks aborted, totals ----------

  /** The week keys of the records of a kind, in order. */
  function WeekKeys(log: seq<Action>, kind: ActionKind): seq<int> {
    if log == [] then []
    else
      var last := log[|log| - 1];
      WeekKeys(log[..|log| - 1], kind) + (if last.kind == kind then [last.week] else [])
  }

  function WeeksWith(log: seq<Action>, kind: ActionKind): set<int> {
    Sets.Elements(WeekKeys(log, kind))
  }

  function Total(log: seq<Action>, kind: ActionKind): nat {
    if log == [] then 0
    else Total(log[..|log| - 1], kind) + (if log[|log| - 1].kind == kind then 1 else 0)
  }

  lemma {:induction false} WeekKeysAreCounted(log: seq<Action>, kind: ActionKind, week: int)
    ensures week in WeekKeys(log, kind) <==> Count(log, kind, week) > 0
  {
    if log != [] {
      WeekKeysAreCounted(log[..|log| - 1], kind, week);
    }
  }

  // ---------- Totals are sums over stretches ----------

  function TotalTally(log: seq<Action>): Tally {
    Tally(Total(log, DeployInitial), Total(log, AddAdjustment), Total(log, SkipEventWeek), Total(log, Abort))
  }

  lemma {:induction false} TotalConcat(a: seq<Action>, b: seq<Action>, kind: ActionKind)
    ensures Total(a + b, kind) == Total(a, kind) + Total(b, kind)
  {
    if b == [] {
      assert a + b == a;
    } else {
      assert (a + b)[..|a + b| - 1] == a + b[..|b| - 1];
      TotalConcat(a, b[..|b| - 1], kind);
    }
  }

  lemma TotalTallyConcat(a: seq<Action>, b: seq<Action>)
    ensures TotalTally(a + b) == Plus(TotalTally(a), TotalTally(b))
  {
    hide Total;
    TotalConcat(a, b, DeployInitial);
    TotalConcat(a, b, AddAdjustment);
    TotalConcat(a, b, SkipEventWeek);
    TotalConcat(a, b, Abort);
  }

  lemma {:induction false} OneWeekIsAll(log: seq<Action>, week: int, kind: ActionKind)
    requires forall i :: 0 <= i < |log| ==> log[i].week == week
    ensures Total(log, kind) == Count(log, kind, week)
  {
    if log != [] {
      OneWeekIsAll(log[..|log| - 1], week, kind);
    }
  }

  lemma StepTotals(cfg: Config, ctx: Context, bar: Bar)
    ensures var log := Step(cfg, ctx, bar).actions; TotalTally(log) == TallyOf(log, bar.stamp.Week())
  {
    hide Step, Total, Count;
    StepRecordsAreOfBar(cfg, ctx, bar);
    var log := Step(cfg, ctx, bar).actions;
    OneWeekIsAll(log, bar.stamp.Week(), DeployInitial);
    OneWeekIsAll(log, bar.stamp.Week(), AddAdjustment);
    OneWeekIsAll(log, bar.stamp.Week(), SkipEventWeek);
    OneWeekIsAll(log, bar.stamp.Week(), Abort);
  }

  function TallySum(ts: seq<Tally>): Tally {
    if ts == [] then NOTHING else Plus(TallySum(ts[..|ts| - 1]), ts[|ts| - 1])
  }

  lemma TallySumOneMore(ts: seq<Tally>, t: Tally)
    ensures TallySum(ts + [t]) == Plus(TallySum(ts), t)
    ensures ts != [] ==> TallySum(ts[..|ts| - 1] + [Plus(ts[|ts| - 1], t)]) == Plus(TallySum(ts), t)
  {
    hide Plus;
    assert (ts + [t])[..|ts|] == ts;
    if ts != [] {
      var n := |ts| - 1;
      assert (ts[..n] + [Plus(ts[n], t)])[..n] == ts[..n];
      PlusIsAssociative(TallySum(ts[..n]), ts[n], t);
    }
  }

  lemma {:induction false} RunIsSumOfStretches(cfg: Config, bars: seq<Bar>)
    ensures TotalTally(Run(cfg, bars).actions) == TallySum(Tallies(cfg, bars))
  {
    hide Step, Plus, TallyOf, TallySum, TotalTally;
    if bars == [] {
      NothingTotals(cfg);
    } else {
      var before, bar := bars[..|bars| - 1], bars[|bars| - 1];
      var r := Run(cfg, before);
      var o := Step(cfg, r.ctx, bar);
      RunIsSumOfStretches(cfg, before);
      TotalTallyConcat(r.actions, o.actions);
      StepTotals(cfg, r.ctx, bar);
      TallySumOneMore(Tallies(cfg, before), TallyOf(o.actions, bar.stamp.Week()));
    }
  }

  lemma NothingTotals(cfg: Config)
    ensures TotalTally(Run(cfg, []).actions) == TallySum(Tallies(cfg, []))
  {
  }

  // ---------- The account of a run ----------

  /** The weeks of the stretches on which a corridor is opened, in order; a week can occur more than once. */
  ghost function DeployedWeeks(cfg: Config, stretches: seq<Stretch>): seq<int> {
    if stretches == [] then []
    else
      var last := stretches[|stretches| - 1];
      DeployedWeeks(cfg, stretches[..|stretches| - 1])
      + (if last != [] && IsDeployed(cfg, last) then [WeekOf(last)] else [])
  }

  /** The weeks of the stretches on which a skip is recorded. */
  ghost function SkippedWeeks(cfg: Config, stretches: seq<Stretch>): seq<int> {
    if stretches == [] then []
    else
      var last := stretches[|stretches| - 1];
      SkippedWeeks(cfg, stretches[..|stretches| - 1])
      + (if last != [] && IsSkipped(cfg, last) then [WeekOf(last)] else [])
  }

  lemma {:induction false} SumOfAllAccounts(cfg: Config, ss: seq<Stretch>, ts: seq<Tally>)
    requires AreAccounts(cfg, ss, ts)
    ensures Amounts(cfg, TallySum(ts), |DeployedWeeks(cfg, ss)|, |SkippedWeeks(cfg, ss)|)
  {
    hide InitialCount, IsSkipped, IsDeployed, WeekOf, Amounts, IsAccountOf, Plus;
    if ss == [] {
      NoAmounts(cfg);
    } else {
      var n := |ss| - 1;
      SumOfAllAccounts(cfg, ss[..n], ts[..n]);
      assert IsAccount(cfg, ss[n], ts[n]);
      if IsDeployed(cfg, ss[n]) {
        DeployedIsOpen(cfg, ss[n]);
      }
      AmountsAdd(cfg, TallySum(ts[..n]), |DeployedWeeks(cfg, ss[..n])|, |SkippedWeeks(cfg, ss[..n])|, ts[n],
                 IsDeployed(cfg, ss[n]), IsSkipped(cfg, ss[n]));
    }
  }

  lemma {:induction false} WeeksOfStretches(cfg: Config, ss: seq<Stretch>, week: int)
    ensures week in DeployedWeeks(cfg, ss) <==> DeployedStretches(cfg, ss, week) > 0
    ensures week in SkippedWeeks(cfg, ss) <==> SkippedStretches(cfg, ss, week) > 0
  {
    hide IsDeployed, IsSkipped, WeekOf;
    if ss != [] {
      WeeksOfStretches(cfg, ss[..|ss| - 1], week);
    }
  }

  /** The account of a run, in whatever order its bars come: as many corridors as stretches with a deploying bar, as
      many skips as stretches with an early blocked bar, and for each corridor at most the allowed adjustments. */
  lemma AccountOfRun(cfg: Config, bars: seq<Bar>)
    ensures var log, d := Run(cfg, bars).actions, |DeployedWeeks(cfg, Stretches(bars))|;
            && Total(log, DeployInitial) == InitialCount(cfg) * d
            && Total(log, SkipEventWeek) == |SkippedWeeks(cfg, Stretches(bars))|
            && Total(log, AddAdjustment) <= Max(0, cfg.maxAdjustments) * d
  {
    hide Total, Run, Stretches, Tallies, InitialCount, AreAccounts, TallySum;
    RunIsSumOfStretches(cfg, bars);
    TalliesAreAccounts(cfg, bars);
    SumOfAllAccounts(cfg, Stretches(bars), Tallies(cfg, bars));
  }

  /** The weeks of a run, in any order of bars: the weeks traded are the weeks of the deployed stretches, and only these
      are adjusted or aborted; the weeks skipped are those of the skipped stretches. */
  lemma WeeksOfRun(cfg: Config, bars: seq<Bar>)
    ensures var log, traded := Run(cfg, bars).actions, Sets.Elements(DeployedWeeks(cfg, Stretches(bars)));
            && WeeksWith(log, DeployInitial) == traded
            && WeeksWith(log, SkipEventWeek) == Sets.Elements(SkippedWeeks(cfg, Stretches(bars)))
            && WeeksWith(log, AddAdjustment) <= traded
            && WeeksWith(log, Abort) <= traded
            && |WeeksWith(log, AddAdjustment)| <= |traded| && |WeeksWith(log, Abort)| <= |traded|
            && |traded| <= |DeployedWeeks(cfg, Stretches(bars))|
  {
    hide Run, Stretches, DeployedWeeks, SkippedWeeks, WeekKeys;
    var log, deployed := Run(cfg, bars).actions, DeployedWeeks(cfg, Stretches(bars));
    var skipped := SkippedWeeks(cfg, Stretches(bars));
    forall w
      ensures w in WeekKeys(log, DeployInitial) <==> w in deployed
      ensures w in WeekKeys(log, SkipEventWeek) <==> w in skipped
      ensures w in WeekKeys(log, AddAdjustment) || w in WeekKeys(log, Abort) ==> w in deployed
    {
      WeekOfRun(cfg, bars, w);
    }
    Sets.FewerElements(WeekKeys(log, DeployInitial), deployed);
    Sets.FewerElements(deployed, WeekKeys(log, DeployInitial));
    Sets.FewerElements(WeekKeys(log, SkipEventWeek), skipped);
    Sets.FewerElements(skipped, WeekKeys(log, SkipEventWeek));
    Sets.FewerElements(WeekKeys(log, AddAdjustment), deployed);
    Sets.FewerElements(WeekKeys(log, Abort), deployed);
    Sets.ElementsAreFew(deployed);
  }

  lemma WeekOfRun(cfg: Config, bars: seq<Bar>, w: int)
    ensures var log, ss := Run(cfg, bars).actions, Stretches(bars);
            && (w in WeekKeys(log, DeployInitial) <==> w in DeployedWeeks(cfg, ss))
            && (w in WeekKeys(log, SkipEventWeek) <==> w in SkippedWeeks(cfg, ss))
            && (w in WeekKeys(log, AddAdjustment) || w in WeekKeys(log, Abort) ==> w in DeployedWeeks(cfg, ss))
  {
    hide Run, Stretches, DeployedWeeks, SkippedWeeks, WeekKeys, Count, DeployedStretches, SkippedStretches,
         InitialCount;
    var log, ss := Run(cfg, bars).actions, Stretches(bars);
    AccountOfWeek(cfg, bars, w);
    WeeksOfStretches(cfg, ss, w);
    WeekKeysAreCounted(log, DeployInitial, w);
    WeekKeysAreCounted(log, SkipEventWeek, w);
    WeekKeysAreCounted(log, AddAdjustment, w);
    WeekKeysAreCounted(log, Abort, w);
    if DeployedStretches(cfg, ss, w) > 0 {
      PositiveProduct(InitialCount(cfg), DeployedStretches(cfg, ss, w));
    }
  }

  lemma PositiveProduct(a: nat, b: nat)
    requires a > 0 && b > 0
    ensures a * b > 0
  {
  }

  // ---------- Bars in time order ----------

  lemma {:induction false} EachWeekOnce(cfg: Config, ss: seq<Stretch>)
    requires forall w :: DeployedStretches(cfg, ss, w) <= 1
    ensures |Sets.Elements(DeployedWeeks(cfg, ss))| == |DeployedWeeks(cfg, ss)|
  {
    hide IsDeployed, WeekOf;
    if ss != [] {
      var before, last := ss[..|ss| - 1], ss[|ss| - 1];
      forall w
        ensures DeployedStretches(cfg, before, w) <= 1
      {
        assert DeployedStretches(cfg, ss, w) <= 1;
      }
      EachWeekOnce(cfg, before);
      if last != [] && IsDeployed(cfg, last) {
        assert DeployedStretches(cfg, ss, WeekOf(last)) <= 1;
        WeeksOfStretches(cfg, before, WeekOf(last));
        Sets.OneMoreElement(DeployedWeeks(cfg, before), WeekOf(last));
      } else {
        assert DeployedWeeks(cfg, ss) == DeployedWeeks(cfg, before);
      }
    }
  }

  /** The weekly figures of bars in time order: no more weeks are aborted than traded, and for each week traded there
      are the layers of one corridor and at most `maxAdjustments` adjustments. */
  lemma WeeklyFiguresAreBounded(cfg: Config, bars: seq<Bar>)
    requires InOrder(bars)
    ensures var log := Run(cfg, bars).actions;
            && WeeksWith(log, Abort) <= WeeksWith(log, DeployInitial)
            && WeeksWith(log, AddAdjustment) <= WeeksWith(log, DeployInitial)
            && |WeeksWith(log, Abort)| <= |WeeksWith(log, DeployInitial)|
            && Total(log, AddAdjustment) <= Max(0, cfg.maxAdjustments) * |WeeksWith(log, DeployInitial)|
            && Total(log, DeployInitial) == InitialCount(cfg) * |WeeksWith(log, DeployInitial)|
            && |DeployedWeeks(cfg, Stretches(bars))| == |WeeksWith(log, DeployInitial)|
  {
    hide Run, Stretches, DeployedWeeks, SkippedWeeks, WeekKeys, Total, InitialCount, DeployedStretches, InOrder;
    StretchesRise(bars);
    forall w
      ensures DeployedStretches(cfg, Stretches(bars), w) <= 1
    {
      OneStretchEach(cfg, Stretches(bars), w);
    }
    EachWeekOnce(cfg, Stretches(bars));
    AccountOfRun(cfg, bars);
    WeeksOfRun(cfg, bars);
  }
}
