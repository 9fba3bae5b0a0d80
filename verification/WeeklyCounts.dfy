/** How often one week can deploy, adjust and skip, for bars that come in time order. */
module WeeklyCounts {
  import opened Options
  import opened WeeklyModels
  import opened WeeklyStep
  import opened WeeklyRuns
  import opened WeeklyTallies
  import opened WeeklyStretches

  ghost predicate InOrder(bars: seq<Bar>) {
    forall i :: 0 < i < |bars| ==> NotAfter(bars[i - 1].stamp, bars[i].stamp)
  }

  // ---------- In time order a week is one stretch ----------

  ghost predicate AllBefore(stretches: seq<Stretch>, week: int) {
    forall i :: 0 <= i < |stretches| ==> stretches[i] != [] && WeekOf(stretches[i]) < week
  }

  ghost predicate Rise(stretches: seq<Stretch>) {
    stretches != [] ==>
      var n := |stretches| - 1;
      Rise(stretches[..n]) && stretches[n] != [] && AllBefore(stretches[..n], WeekOf(stretches[n]))
  }

  lemma {:induction false} StretchesRise(bars: seq<Bar>)
    requires InOrder(bars)
    ensures Rise(Stretches(bars))
  {
    if bars != [] {
      var n := |bars| - 1;
      var before, all := Stretches(bars[..n]), Stretches(bars);
      StretchesRise(bars[..n]);
      StretchesAreMaximal(bars[..n]);
      StretchesAreMaximal(bars);
      if n > 0 {
        WeeksFollowDays(bars[n - 1].stamp, bars[n].stamp);
        var m := |before| - 1;
        if bars[n - 1].stamp.Week() == bars[n].stamp.Week() {
          assert all[..m] == before[..m];
        } else {
          assert all[..m + 1] == before;
          AllBeforeNext(before, bars[n].stamp.Week());
        }
      }
    }
  }

  lemma AllBeforeNext(stretches: seq<Stretch>, week: int)
    requires Rise(stretches) && stretches != [] && WeekOf(stretches[|stretches| - 1]) < week
    ensures AllBefore(stretches, week)
  {
    var n := |stretches| - 1;
    hide WeekOf;
    assert forall i :: 0 <= i < n ==> stretches[..n][i] == stretches[i];
  }

  lemma {:induction false} NothingLater(cfg: Config, ss: seq<Stretch>, ts: seq<Tally>, last: int, week: int)
    requires |ss| == |ts| && AllBefore(ss, last) && last <= week
    ensures WeekSum(ss, ts, week) == NOTHING
    ensures DeployedStretches(cfg, ss, week) == SkippedStretches(cfg, ss, week) == 0
  {
    hide IsDeployed, IsSkipped, WeekOf, Plus;
    NothingAdds(NOTHING);
    if ss != [] {
      assert forall i :: 0 <= i < |ss| - 1 ==> ss[..|ss| - 1][i] == ss[i];
      NothingLater(cfg, ss[..|ss| - 1], ts[..|ts| - 1], last, week);
    }
  }

  lemma {:induction false} OneStretchEach(cfg: Config, ss: seq<Stretch>, week: int)
    requires Rise(ss)
    ensures DeployedStretches(cfg, ss, week) <= 1 && SkippedStretches(cfg, ss, week) <= 1
  {
    hide IsDeployed, IsSkipped, WeekOf;
    if ss != [] {
      var n := |ss| - 1;
      OneStretchEach(cfg, ss[..n], week);
      if WeekOf(ss[n]) == week {
        NothingLater(cfg, ss[..n], seq(n, i => NOTHING), week, week);
      }
    }
  }

  /** What the log has seen of a week, given the context: nothing of weeks to come, and of the current week
      exactly what the context remembers. */
  ghost predicate TallyFits(cfg: Config, ctx: Context, t: Tally, week: int) {
    && WeekIsSafe(cfg, t)
    && (ctx.week == None || week > ctx.week.value ==> t == NOTHING)
    && (ctx.week == Some(week) ==>
          if ctx.state == Idle
          then t.deploys == t.adjustments == t.aborts == 0 && t.skips == (if ctx.eventSkipped then 1 else 0)
          else t.deploys > 0 && t.adjustments == ctx.adjustments)
  }

  /** The safety of every week, on every run whose bars come in time order: then a week is a single stretch. */
  lemma EveryWeekIsSafe(cfg: Config, bars: seq<Bar>, week: int)
    requires InOrder(bars)
    ensures WeekIsSafe(cfg, TallyOf(Run(cfg, bars).actions, week))
    ensures TallyFits(cfg, Run(cfg, bars).ctx, TallyOf(Run(cfg, bars).actions, week), week)
  {
    hide Run, TallyOf, WeekIsSafe, WeekOf, DeployedStretches, SkippedStretches, Stretches, Tallies, WeekSum,
         AreAccounts;
    var ss, ts := Stretches(bars), Tallies(cfg, bars);
    StretchesRise(bars);
    OneStretchEach(cfg, ss, week);
    WeekIsSafeIffOneStretch(cfg, bars, week);
    WeekIsSumOfStretches(cfg, bars, week);
    RunKeepsInv(cfg, bars);
    if bars == [] {
      NothingRuns(cfg, week);
      NoWeekYet(cfg);
    } else {
      StretchesAreMaximal(bars);
      TalliesAreAccounts(cfg, bars);
      CurrentWeekFits(cfg, Run(cfg, bars).ctx, ss, ts, week);
    }
  }

  lemma NoWeekYet(cfg: Config)
    ensures Run(cfg, []).ctx == INITIAL_CONTEXT
    ensures forall week :: WeekSum([], [], week) == NOTHING
  {
  }

  lemma CurrentWeekFits(cfg: Config, ctx: Context, ss: seq<Stretch>, ts: seq<Tally>, week: int)
    requires ss != [] && AreAccounts(cfg, ss, ts) && Rise(ss) && LastIsRemembered(cfg, ctx, ss, ts)
    requires ctx.week == Some(WeekOf(ss[|ss| - 1])) && WeekIsSafe(cfg, WeekSum(ss, ts, week))
    ensures TallyFits(cfg, ctx, WeekSum(ss, ts, week), week)
  {
    hide IsSkipped, WeekOf, WeekIsSafe, InitialCount, Plus, IsDeployed;
    var n := |ss| - 1;
    if week >= WeekOf(ss[n]) {
      NothingLater(cfg, ss[..n], ts[..n], WeekOf(ss[n]), week);
      hide AllBefore, Rise, AreAccounts;
      NothingAdds(ts[n]);
      NothingAdds(NOTHING);
      RememberedFits(cfg, ctx, ss[n], ts[n]);
    }
  }

  lemma RememberedFits(cfg: Config, ctx: Context, s: Stretch, t: Tally)
    requires Remembers(cfg, ctx, s, t)
    ensures ctx.state == Idle ==>
              t.deploys == t.adjustments == t.aborts == 0 && t.skips == if ctx.eventSkipped then 1 else 0
    ensures ctx.state != Idle ==> t.deploys > 0 && t.adjustments == ctx.adjustments
  {
    hide IsSkipped, HasDeploying;
  }

  // ---------- Out of time order ----------

  /** The order of texts. */
  predicate ComesBefore(s: string, t: string) {
    && t != ""
    && (s == "" || s[0] < t[0] || (s[0] == t[0] && ComesBefore(s[1..], t[1..])))
  }

  /** The order of a decision frame: by symbol, and for one symbol by time. */
  ghost predicate IsDecisionFrame(bars: seq<Bar>) {
    forall i :: 0 < i < |bars| ==>
      || ComesBefore(bars[i - 1].symbol, bars[i].symbol)
      || (bars[i - 1].symbol == bars[i].symbol && NotAfter(bars[i - 1].stamp, bars[i].stamp))
  }

  /** In a decision frame of two symbols a week can deploy twice: two weeks of the first symbol, and then a deploying
      bar of the second symbol in the first of these weeks. */
  lemma TimeOrderIsNeeded(cfg: Config, a: Bar, b: Bar, c: Bar)
    requires cfg.maxActive > 0 && Deploys(cfg, a) && Deploys(cfg, b) && Deploys(cfg, c)
    requires a.symbol == b.symbol && NotAfter(a.stamp, b.stamp) && ComesBefore(a.symbol, c.symbol)
    requires a.stamp.Week() == c.stamp.Week() != b.stamp.Week()
    ensures IsDecisionFrame([a, b, c])
    ensures var t := TallyOf(Run(cfg, [a, b, c]).actions, a.stamp.Week());
            t.deploys == 2 * InitialCount(cfg) && !WeekIsSafe(cfg, t)
  {
    hide IsDeployed, Deploys, InitialCount, Run, TallyOf, WeekIsSafe, ComesBefore, Stretches, SkippedStretches;
    var bars, week := [a, b, c], a.stamp.Week();
    ThreeStretches(a, b, c);
    DeployingBar(cfg, a);
    DeployingBar(cfg, c);
    assert [[a], [b], [c]][..2] == [[a], [b]] && [[a], [b]][..1] == [[a]] && [[a]][..0] == [];
    assert DeployedStretches(cfg, [[a]], week) == 1;
    assert DeployedStretches(cfg, [[a], [b]], week) == 1;
    assert DeployedStretches(cfg, [[a], [b], [c]], week) == 2;
    AccountOfWeek(cfg, bars, week);
    WeekIsSafeIffOneStretch(cfg, bars, week);
  }

  lemma ThreeStretches(a: Bar, b: Bar, c: Bar)
    requires a.stamp.Week() == c.stamp.Week() != b.stamp.Week()
    ensures Stretches([a, b, c]) == [[a], [b], [c]]
  {
    assert [a][..0] == [] && [a, b][..1] == [a] && [a, b, c][..2] == [a, b];
    assert Stretches([a]) == [[a]];
    assert Stretches([a, b]) == [[a]] + [[b]];
    assert Stretches([a, b, c]) == [[a]] + [[b]] + [[c]];
  }

  lemma DeployingBar(cfg: Config, bar: Bar)
    requires cfg.maxActive > 0 && Deploys(cfg, bar)
    ensures IsDeployed(cfg, [bar])
  {
    assert Deploys(cfg, [bar][0]);
  }
}
