/** Weekly accounts of runs whose bars come in any order. The machine forgets a week when a bar of another week comes,
    so what counts are stretches: consecutive bars of one week. */
module WeeklyStretches {
  import opened Options
  import opened Rounding
  import opened WeeklyModels
  import opened WeeklyStep
  import opened WeeklyInvariants
  import opened WeeklyRuns
  import opened WeeklyTallies

  // ---------- Stretches of bars ----------

  type Stretch = seq<Bar>

  /** The bars, cut where the week changes. */
  function Stretches(bars: seq<Bar>): seq<Stretch> {
    if bars == [] then []
    else
      var n := |bars| - 1;
      var before := Stretches(bars[..n]);
      if n > 0 && before != [] && bars[n - 1].stamp.Week() == bars[n].stamp.Week()
      then before[..|before| - 1] + [before[|before| - 1] + [bars[n]]]
      else before + [[bars[n]]]
  }

  function WeekOf(s: Stretch): int
    requires s != []
  {
    s[|s| - 1].stamp.Week()
  }

  ghost predicate IsStretch(s: Stretch) {
    s != [] && forall i :: 0 <= i < |s| ==> s[i].stamp.Week() == WeekOf(s)
  }

  function Flattened(stretches: seq<Stretch>): seq<Bar> {
    if stretches == [] then [] else Flattened(stretches[..|stretches| - 1]) + stretches[|stretches| - 1]
  }

  /** Stretches whose neighbours are of different weeks. */
  ghost predicate Alternate(stretches: seq<Stretch>) {
    stretches != [] ==>
      var n := |stretches| - 1;
      && Alternate(stretches[..n]) && IsStretch(stretches[n])
      && (n > 0 ==> stretches[n - 1] != [] && WeekOf(stretches[n - 1]) != WeekOf(stretches[n]))
  }

  lemma AlternatesWith(stretches: seq<Stretch>, s: Stretch)
    requires Alternate(stretches) && IsStretch(s)
    requires stretches != [] ==>
      IsStretch(stretches[|stretches| - 1]) && WeekOf(stretches[|stretches| - 1]) != WeekOf(s)
    ensures Alternate(stretches + [s]) && Flattened(stretches + [s]) == Flattened(stretches) + s
  {
    assert (stretches + [s])[..|stretches|] == stretches;
  }

  lemma AlternatesWithout(stretches: seq<Stretch>)
    requires Alternate(stretches) && stretches != []
    ensures var n := |stretches| - 1;
            && Alternate(stretches[..n]) && IsStretch(stretches[n])
            && Flattened(stretches) == Flattened(stretches[..n]) + stretches[n]
            && (n > 0 ==> stretches[n - 1] != [] && WeekOf(stretches[n - 1]) != WeekOf(stretches[n]))
  {
  }

  lemma OneBarStretch(bar: Bar)
    ensures IsStretch([bar]) && WeekOf([bar]) == bar.stamp.Week()
  {
  }

  lemma StretchGrows(s: Stretch, bar: Bar)
    requires IsStretch(s) && WeekOf(s) == bar.stamp.Week()
    ensures IsStretch(s + [bar]) && WeekOf(s + [bar]) == bar.stamp.Week()
  {
    assert forall i :: 0 <= i < |s| ==> (s + [bar])[i] == s[i];
  }

  lemma GrownAlternates(stretches: seq<Stretch>, bar: Bar)
    requires Alternate(stretches) && stretches != []
    requires IsStretch(stretches[|stretches| - 1]) && WeekOf(stretches[|stretches| - 1]) == bar.stamp.Week()
    ensures var n := |stretches| - 1;
            var grown := stretches[..n] + [stretches[n] + [bar]];
            && Alternate(grown) && Flattened(grown) == Flattened(stretches) + [bar]
            && grown[n] != [] && WeekOf(grown[n]) == bar.stamp.Week()
  {
    hide Alternate, IsStretch, Flattened, WeekOf;
    var n := |stretches| - 1;
    AlternatesWithout(stretches);
    StretchGrows(stretches[n], bar);
    if n > 0 {
      AlternatesWithout(stretches[..n]);
    }
    AlternatesWith(stretches[..n], stretches[n] + [bar]);
  }

  lemma ExtendedAlternates(stretches: seq<Stretch>, bar: Bar)
    requires Alternate(stretches)
    requires stretches != [] ==>
      IsStretch(stretches[|stretches| - 1]) && WeekOf(stretches[|stretches| - 1]) != bar.stamp.Week()
    ensures var all := stretches + [[bar]];
            Alternate(all) && Flattened(all) == Flattened(stretches) + [bar] && WeekOf([bar]) == bar.stamp.Week()
  {
    hide Alternate, IsStretch, Flattened, WeekOf;
    OneBarStretch(bar);
    AlternatesWith(stretches, [bar]);
  }

  /** The stretches are the bars in order; each is of one week, and neighbours are of different weeks. */
  lemma {:induction false} StretchesAreMaximal(bars: seq<Bar>)
    ensures Flattened(Stretches(bars)) == bars && Alternate(Stretches(bars))
    ensures bars != [] ==> Stretches(bars) != []
    ensures forall i :: 0 <= i < |Stretches(bars)| ==> Stretches(bars)[i] != []
    ensures bars != [] ==> WeekOf(Stretches(bars)[|Stretches(bars)| - 1]) == bars[|bars| - 1].stamp.Week()
  {
    hide Flattened, Alternate, WeekOf;
    NoStretches();
    if bars != [] {
      var n := |bars| - 1;
      var before := Stretches(bars[..n]);
      StretchesAreMaximal(bars[..n]);
      assert bars == bars[..n] + [bars[n]];
      if before != [] {
        AlternatesWithout(before);
      }
      if n > 0 && bars[n - 1].stamp.Week() == bars[n].stamp.Week() {
        GrownAlternates(before, bars[n]);
      } else {
        ExtendedAlternates(before, bars[n]);
      }
      AlternateAreFull(Stretches(bars));
    }
  }

  lemma NoStretches()
    ensures Flattened([]) == [] && Alternate([])
  {
  }

  lemma {:induction false} AlternateAreFull(stretches: seq<Stretch>)
    requires Alternate(stretches)
    ensures forall i :: 0 <= i < |stretches| ==> stretches[i] != []
  {
    if stretches != [] {
      AlternateAreFull(stretches[..|stretches| - 1]);
    }
  }

  // ---------- What a stretch leads to ----------

  /** A bar on which an idle machine deploys. */
  ghost predicate Deploys(cfg: Config, bar: Bar) {
    WithinEntryWindow(cfg, bar.stamp) && !bar.regime.eventBlocked && bar.regime.IsRange() && bar.center.Some?
  }

  /** A bar on which an idle machine skips its week. */
  ghost predicate Blocks(cfg: Config, bar: Bar) {
    WithinEntryWindow(cfg, bar.stamp) && bar.regime.eventBlocked
  }

  ghost predicate HasDeploying(cfg: Config, s: Stretch) {
    exists i :: 0 <= i < |s| && Deploys(cfg, s[i])
  }

  /** A corridor is opened on the first deploying bar, unless no layers are allowed at all. */
  ghost predicate IsDeployed(cfg: Config, s: Stretch) {
    InitialCount(cfg) > 0 && HasDeploying(cfg, s)
  }

  /** A blocked bar comes before any corridor is opened. */
  ghost predicate IsSkipped(cfg: Config, s: Stretch) {
    exists i :: 0 <= i < |s| && Blocks(cfg, s[i]) && !IsDeployed(cfg, s[..i])
  }

  lemma IsDeployedSnoc(cfg: Config, s: Stretch, bar: Bar)
    ensures IsDeployed(cfg, s + [bar]) <==> IsDeployed(cfg, s) || (InitialCount(cfg) > 0 && Deploys(cfg, bar))
  {
    hide InitialCount, Deploys;
    var t := s + [bar];
    assert t[|s|] == bar;
    if HasDeploying(cfg, s) {
      var i :| 0 <= i < |s| && Deploys(cfg, s[i]);
      assert t[i] == s[i];
    }
  }

  lemma IsSkippedSnoc(cfg: Config, s: Stretch, bar: Bar)
    ensures IsSkipped(cfg, s + [bar]) <==> IsSkipped(cfg, s) || (Blocks(cfg, bar) && !IsDeployed(cfg, s))
  {
    hide Blocks, IsDeployed;
    var t := s + [bar];
    assert t[|s|] == bar && t[..|s|] == s;
    if IsSkipped(cfg, s) {
      var i :| 0 <= i < |s| && Blocks(cfg, s[i]) && !IsDeployed(cfg, s[..i]);
      assert t[i] == s[i] && t[..i] == s[..i];
    }
    if IsSkipped(cfg, t) {
      var i :| 0 <= i < |t| && Blocks(cfg, t[i]) && !IsDeployed(cfg, t[..i]);
      if i < |s| {
        assert t[i] == s[i] && t[..i] == s[..i];
      }
    }
  }

  /** The account of a stretch: its deployments and skips are determined by its bars. */
  ghost predicate IsAccount(cfg: Config, s: Stretch, t: Tally) {
    IsAccountOf(cfg, IsDeployed(cfg, s), IsSkipped(cfg, s), t)
  }

  ghost predicate IsAccountOf(cfg: Config, deployed: bool, skipped: bool, t: Tally) {
    && WeekIsSafe(cfg, t)
    && t.deploys == (if deployed then InitialCount(cfg) else 0)
    && t.skips == (if skipped then 1 else 0)
  }

  /** What the context remembers of the current stretch. */
  ghost predicate Remembers(cfg: Config, ctx: Context, s: Stretch, t: Tally) {
    && IsAccount(cfg, s, t)
    && (ctx.state == Idle <==> !IsDeployed(cfg, s))
    && (if ctx.state == Idle
        then t.deploys == t.adjustments == t.aborts == 0 && (ctx.eventSkipped <==> IsSkipped(cfg, s))
        else t.adjustments == ctx.adjustments)
  }

  // ---------- One bar more ----------

  lemma FreshWeekIsSafe(cfg: Config, t: Tally)
    requires t.adjustments == t.aborts == 0 && (t.deploys == 0 || t.deploys == InitialCount(cfg)) && t.skips <= 1
    ensures WeekIsSafe(cfg, t)
  {
  }

  lemma EnterRemembers(cfg: Config, ctx: Context, bar: Bar, s: Stretch, t: Tally)
    requires ctx.state == Idle && ctx.week == Some(bar.stamp.Week()) && ctx.adjustments == 0
    requires Remembers(cfg, ctx, s, t)
    ensures Remembers(cfg, Enter(cfg, ctx, bar).ctx, s + [bar], Plus(t, EnterTally(cfg, ctx, bar)))
  {
    EnterTallyIs(cfg, ctx, bar);
    hide Enter, EnterTally, InitialCount, IsDeployed, IsSkipped, Deploys, Blocks, IsAccountOf;
    EnterContext(cfg, ctx, bar);
    NotDeployedYet(cfg, IsSkipped(cfg, s), t);
    EnterAccount(cfg, Deploys(cfg, bar), Blocks(cfg, bar), ctx.eventSkipped, t, EnterTally(cfg, ctx, bar));
    IsDeployedSnoc(cfg, s, bar);
    IsSkippedSnoc(cfg, s, bar);
  }

  lemma EnterTallyIs(cfg: Config, ctx: Context, bar: Bar)
    ensures var dt := EnterTally(cfg, ctx, bar);
            && dt.deploys == (if Deploys(cfg, bar) then InitialCount(cfg) else 0)
            && dt.skips == (if Blocks(cfg, bar) && !ctx.eventSkipped then 1 else 0)
            && dt.adjustments == dt.aborts == 0
    ensures !(Deploys(cfg, bar) && Blocks(cfg, bar))
  {
    hide InitialCount;
  }

  lemma NotDeployedYet(cfg: Config, skipped: bool, t: Tally)
    requires IsAccountOf(cfg, false, skipped, t)
    ensures t.deploys == 0
  {
  }

  lemma EnterAccount(cfg: Config, deploying: bool, blocking: bool, skipped: bool, t: Tally, dt: Tally)
    requires IsAccountOf(cfg, false, skipped, t) && t.adjustments == t.aborts == 0
    requires dt.deploys == (if deploying then InitialCount(cfg) else 0)
    requires dt.skips == (if blocking && !skipped then 1 else 0) && dt.adjustments == dt.aborts == 0
    ensures IsAccountOf(cfg, InitialCount(cfg) > 0 && deploying, skipped || blocking, Plus(t, dt))
  {
    hide InitialCount, WeekIsSafe;
    FreshWeekIsSafe(cfg, Plus(t, dt));
  }

  lemma ManageRemembers(cfg: Config, ctx: Context, bar: Bar, s: Stretch, t: Tally)
    requires 0 <= ctx.adjustments && ctx.state != Idle && ctx.week == Some(bar.stamp.Week())
    requires Remembers(cfg, ctx, s, t)
    ensures Remembers(cfg, Manage(cfg, ctx, bar).ctx, s + [bar], Plus(t, ManageTally(cfg, ctx, bar)))
  {
    hide Manage, InitialCount, IsSkipped, IsDeployed;
    ManageContext(cfg, ctx, bar);
    IsDeployedSnoc(cfg, s, bar);
    IsSkippedSnoc(cfg, s, bar);
    DeployedIsOpen(cfg, s);
    ManagedWeekIsSafe(cfg, t, ManageTally(cfg, ctx, bar));
  }

  lemma DeployedIsOpen(cfg: Config, s: Stretch)
    requires IsDeployed(cfg, s)
    ensures InitialCount(cfg) > 0
  {
  }

  lemma ManagedWeekIsSafe(cfg: Config, t: Tally, dt: Tally)
    requires WeekIsSafe(cfg, t) && t.deploys > 0 && dt.deploys == dt.skips == 0
    requires dt.adjustments > 0 ==> t.adjustments + dt.adjustments <= cfg.maxAdjustments
    ensures WeekIsSafe(cfg, Plus(t, dt))
  {
  }

  lemma NothingRemembered(cfg: Config, ctx: Context)
    requires ctx.state == Idle && !ctx.eventSkipped
    ensures Remembers(cfg, ctx, [], NOTHING)
  {
  }

  /** The stretch so far, when the bar belongs to it, and nothing otherwise. */
  function Continued<T>(same: bool, s: T, nothing: T): T {
    if same then s else nothing
  }

  lemma RolledRemembers(cfg: Config, ctx: Context, bar: Bar, s: Stretch, t: Tally)
    requires Inv(cfg, ctx) && Remembers(cfg, ctx, s, t)
    ensures var same, rolled := ctx.week == Some(bar.stamp.Week()), RollWeek(ctx, bar).ctx;
            Remembers(cfg, rolled, Continued(same, s, []), Continued(same, t, NOTHING))
  {
    hide IsAccount, IsDeployed, IsSkipped;
    if ctx.week != Some(bar.stamp.Week()) {
      NothingRemembered(cfg, RollWeek(ctx, bar).ctx);
    }
  }

  /** A bar continues the stretch of its week or starts a new one, and what it adds belongs to that stretch. */
  lemma StepRemembers(cfg: Config, ctx: Context, bar: Bar, s: Stretch, t: Tally)
    requires Inv(cfg, ctx) && Remembers(cfg, ctx, s, t)
    ensures var same, o := ctx.week == Some(bar.stamp.Week()), Step(cfg, ctx, bar);
            Remembers(cfg, o.ctx, Continued(same, s, []) + [bar],
                      Plus(Continued(same, t, NOTHING), TallyOf(o.actions, bar.stamp.Week())))
  {
    hide Remembers, Enter, Manage, TallyOf, CloseAll;
    var week := bar.stamp.Week();
    var same, rolled := ctx.week == Some(week), RollWeek(ctx, bar);
    var s0, t0 := Continued(same, s, []), Continued(same, t, NOTHING);
    RollWeekKeepsInv(cfg, ctx, bar);
    RollWeekTally(ctx, bar, week);
    RolledRemembers(cfg, ctx, bar, s, t);
    if rolled.ctx.state == Idle {
      var entered := Enter(cfg, rolled.ctx, bar);
      EnterTallies(cfg, rolled.ctx, bar, week);
      TallyConcat(rolled.actions, entered.actions, week);
      NothingAdds(TallyOf(entered.actions, week));
      EnterRemembers(cfg, rolled.ctx, bar, s0, t0);
    } else if rolled.ctx.active != [] {
      var managed := Manage(cfg, rolled.ctx, bar);
      ManageTallies(cfg, rolled.ctx, bar, week);
      TallyConcat(rolled.actions, managed.actions, week);
      NothingAdds(TallyOf(managed.actions, week));
      ManageRemembers(cfg, rolled.ctx, bar, s0, t0);
    } else {
      NothingAdds(t0);
      DoneRemembers(cfg, rolled.ctx, bar, s0, t0);
    }
  }

  /** After an exit or an abort the rest of the week changes nothing. */
  lemma DoneRemembers(cfg: Config, ctx: Context, bar: Bar, s: Stretch, t: Tally)
    requires ctx.state != Idle && Remembers(cfg, ctx, s, t)
    ensures Remembers(cfg, ctx, s + [bar], t)
  {
    hide InitialCount, IsSkipped, IsDeployed;
    IsDeployedSnoc(cfg, s, bar);
    IsSkippedSnoc(cfg, s, bar);
  }

  /** What a bar adds to other weeks is nothing. */
  lemma {:induction false} OtherWeeksGetNothing(log: seq<Action>, own: int, week: int)
    requires own != week && forall i :: 0 <= i < |log| ==> log[i].week == own
    ensures TallyOf(log, week) == NOTHING
  {
    if log != [] {
      OtherWeeksGetNothing(log[..|log| - 1], own, week);
    }
  }

  // ---------- Whole runs ----------

  /** The tally of each stretch of a run. */
  function Tallies(cfg: Config, bars: seq<Bar>): seq<Tally> {
    if bars == [] then []
    else
      var n := |bars| - 1;
      var week := bars[n].stamp.Week();
      var before := Tallies(cfg, bars[..n]);
      var dt := TallyOf(Step(cfg, Run(cfg, bars[..n]).ctx, bars[n]).actions, week);
      if n > 0 && before != [] && bars[n - 1].stamp.Week() == week
      then before[..|before| - 1] + [Plus(before[|before| - 1], dt)]
      else before + [dt]
  }

  /** Adds up the tallies of the stretches of one week. */
  function WeekSum(stretches: seq<Stretch>, tallies: seq<Tally>, week: int): Tally
    requires |stretches| == |tallies|
    requires forall i :: 0 <= i < |stretches| ==> stretches[i] != []
  {
    if stretches == [] then NOTHING
    else
      var n := |stretches| - 1;
      Plus(WeekSum(stretches[..n], tallies[..n], week), if WeekOf(stretches[n]) == week then tallies[n] else NOTHING)
  }

  ghost predicate AreAccounts(cfg: Config, stretches: seq<Stretch>, tallies: seq<Tally>) {
    && |stretches| == |tallies|
    && forall i :: 0 <= i < |stretches| ==> stretches[i] != [] && IsAccount(cfg, stretches[i], tallies[i])
  }

  /** The last stretch is the one the context remembers. */
  ghost predicate LastIsRemembered(cfg: Config, ctx: Context, stretches: seq<Stretch>, tallies: seq<Tally>) {
    |stretches| == |tallies| && (stretches != [] ==>
      Remembers(cfg, ctx, stretches[|stretches| - 1], tallies[|tallies| - 1]))
  }

  lemma PlusIsAssociative(a: Tally, b: Tally, c: Tally)
    ensures Plus(Plus(a, b), c) == Plus(a, Plus(b, c))
  {
  }

  /** How the sum of a week grows when a stretch grows or a new one starts. */
  lemma WeekSumOneMore(stretches: seq<Stretch>, tallies: seq<Tally>, bar: Bar, dt: Tally, week: int)
    requires |stretches| == |tallies| && forall i :: 0 <= i < |stretches| ==> stretches[i] != []
    ensures WeekSum(stretches + [[bar]], tallies + [dt], week)
         == Plus(WeekSum(stretches, tallies, week), if bar.stamp.Week() == week then dt else NOTHING)
    ensures stretches != [] && WeekOf(stretches[|stretches| - 1]) == bar.stamp.Week() ==>
      var n := |stretches| - 1;
      WeekSum(stretches[..n] + [stretches[n] + [bar]], tallies[..n] + [Plus(tallies[n], dt)], week)
      == Plus(WeekSum(stretches, tallies, week), if bar.stamp.Week() == week then dt else NOTHING)
  {
    hide Plus;
    assert (stretches + [[bar]])[..|stretches|] == stretches && (tallies + [dt])[..|tallies|] == tallies;
    if stretches != [] {
      var n := |stretches| - 1;
      var grown, more := stretches[..n] + [stretches[n] + [bar]], tallies[..n] + [Plus(tallies[n], dt)];
      assert grown[..n] == stretches[..n] && more[..n] == tallies[..n];
      PlusIsAssociative(WeekSum(stretches[..n], tallies[..n], week), tallies[n], dt);
      NothingAdds(WeekSum(stretches, tallies, week));
      NothingAdds(WeekSum(stretches[..n], tallies[..n], week));
    }
  }

  lemma AccountsGrow(cfg: Config, ctx: Context, ss: seq<Stretch>, ts: seq<Tally>, s: Stretch, t: Tally)
    requires AreAccounts(cfg, ss, ts) && s != [] && Remembers(cfg, ctx, s, t)
    ensures AreAccounts(cfg, ss + [s], ts + [t]) && LastIsRemembered(cfg, ctx, ss + [s], ts + [t])
    ensures ss != [] ==>
      var n := |ss| - 1;
      && AreAccounts(cfg, ss[..n] + [s], ts[..n] + [t])
      && LastIsRemembered(cfg, ctx, ss[..n] + [s], ts[..n] + [t])
  {
    hide Remembers, IsAccount;
    RememberedIsAccount(cfg, ctx);
  }

  /** The tallies of a run are accounts of its stretches. */
  lemma {:induction false} TalliesAreAccounts(cfg: Config, bars: seq<Bar>)
    ensures AreAccounts(cfg, Stretches(bars), Tallies(cfg, bars))
    ensures LastIsRemembered(cfg, Run(cfg, bars).ctx, Stretches(bars), Tallies(cfg, bars))
  {
    hide Step, Remembers, IsAccount, TallyOf, Plus;
    if bars != [] {
      var n := |bars| - 1;
      var before, bar := bars[..n], bars[n];
      var ctx, ss, ts := Run(cfg, before).ctx, Stretches(before), Tallies(cfg, before);
      TalliesAreAccounts(cfg, before);
      RunKeepsInv(cfg, before);
      var s, t := OneBarMore(cfg, before, bar);
      hide AreAccounts, LastIsRemembered;
      AccountsGrow(cfg, Step(cfg, ctx, bar).ctx, ss, ts, s, t);
    }
  }

  /** The stretch and the tally that a bar starts or continues. */
  lemma OneBarMore(cfg: Config, before: seq<Bar>, bar: Bar) returns (s: Stretch, t: Tally)
    requires AreAccounts(cfg, Stretches(before), Tallies(cfg, before))
    requires LastIsRemembered(cfg, Run(cfg, before).ctx, Stretches(before), Tallies(cfg, before))
    ensures var n, ss, ts := |before|, Stretches(before), Tallies(cfg, before);
            var o := Step(cfg, Run(cfg, before).ctx, bar);
            var dt := TallyOf(o.actions, bar.stamp.Week());
            && s != [] && Remembers(cfg, o.ctx, s, t)
            && (if n > 0 && before[n - 1].stamp.Week() == bar.stamp.Week()
                then ss != [] && s == ss[|ss| - 1] + [bar] && t == Plus(ts[|ts| - 1], dt)
                else s == [bar] && t == dt)
  {
    hide Step, Remembers, IsAccount, TallyOf, Plus;
    var ctx, ss, ts := Run(cfg, before).ctx, Stretches(before), Tallies(cfg, before);
    var dt := TallyOf(Step(cfg, ctx, bar).actions, bar.stamp.Week());
    RunKeepsInv(cfg, before);
    StretchesAreMaximal(before);
    var same := ctx.week == Some(bar.stamp.Week());
    var last, tally := [], NOTHING;
    if before != [] {
      last, tally := ss[|ss| - 1], ts[|ts| - 1];
    } else {
      FirstRemembers(cfg);
    }
    StepRemembers(cfg, ctx, bar, last, tally);
    s, t := Continued(same, last, []) + [bar], Plus(Continued(same, tally, NOTHING), dt);
    NothingAdds(dt);
    assert [] + [bar] == [bar];
  }

  /** What the log of a run says about a week is the sum over the stretches of that week. */
  lemma {:induction false} WeekIsSumOfStretches(cfg: Config, bars: seq<Bar>, week: int)
    ensures AreAccounts(cfg, Stretches(bars), Tallies(cfg, bars))
    ensures TallyOf(Run(cfg, bars).actions, week) == WeekSum(Stretches(bars), Tallies(cfg, bars), week)
  {
    hide Step, TallyOf, Plus, WeekSum, IsAccount, WeekOf;
    TalliesAreAccounts(cfg, bars);
    if bars == [] {
      NothingRuns(cfg, week);
    } else {
      var n := |bars| - 1;
      var before, bar := bars[..n], bars[n];
      var r := Run(cfg, before);
      var o := Step(cfg, r.ctx, bar);
      WeekIsSumOfStretches(cfg, before, week);
      StretchesAreMaximal(before);
      StepRecordsAreOfBar(cfg, r.ctx, bar);
      if bar.stamp.Week() != week {
        OtherWeeksGetNothing(o.actions, bar.stamp.Week(), week);
      }
      TallyConcat(r.actions, o.actions, week);
      WeekSumOneMore(Stretches(before), Tallies(cfg, before), bar, TallyOf(o.actions, bar.stamp.Week()), week);
    }
  }

  lemma NothingRuns(cfg: Config, week: int)
    ensures TallyOf(Run(cfg, []).actions, week) == WeekSum([], [], week)
  {
  }

  lemma FirstRemembers(cfg: Config)
    ensures Remembers(cfg, INITIAL_CONTEXT, [], NOTHING)
  {
    NothingRemembered(cfg, INITIAL_CONTEXT);
  }

  lemma RememberedIsAccount(cfg: Config, ctx: Context)
    ensures forall s, t :: Remembers(cfg, ctx, s, t) ==> IsAccount(cfg, s, t)
  {
  }

  // ---------- The account of a week ----------

  /** The stretches of a week on which a corridor is opened. */
  ghost function DeployedStretches(cfg: Config, stretches: seq<Stretch>, week: int): nat {
    if stretches == [] then 0
    else
      var last := stretches[|stretches| - 1];
      DeployedStretches(cfg, stretches[..|stretches| - 1], week)
      + (if last != [] && WeekOf(last) == week && IsDeployed(cfg, last) then 1 else 0)
  }

  /** The stretches of a week on which a skip is recorded. */
  ghost function SkippedStretches(cfg: Config, stretches: seq<Stretch>, week: int): nat {
    if stretches == [] then 0
    else
      var last := stretches[|stretches| - 1];
      SkippedStretches(cfg, stretches[..|stretches| - 1], week)
      + (if last != [] && WeekOf(last) == week && IsSkipped(cfg, last) then 1 else 0)
  }

  lemma TimesOneMore(a: nat, n: nat)
    ensures a * (n + 1) == a * n + a
  {
  }

  /** A tally of `d` corridors and `k` skips. */
  ghost predicate Amounts(cfg: Config, t: Tally, d: nat, k: nat) {
    && t.deploys == InitialCount(cfg) * d
    && t.skips == k
    && t.adjustments <= Max(0, cfg.maxAdjustments) * d
    && (d == 0 ==> t.adjustments == t.aborts == 0)
    && (d > 0 ==> InitialCount(cfg) > 0)
  }

  lemma AmountsAdd(cfg: Config, t: Tally, d: nat, k: nat, dt: Tally, deployed: bool, skipped: bool)
    requires Amounts(cfg, t, d, k) && IsAccountOf(cfg, deployed, skipped, dt) && (deployed ==> InitialCount(cfg) > 0)
    ensures Amounts(cfg, Plus(t, dt), if deployed then d + 1 else d, if skipped then k + 1 else k)
  {
    hide InitialCount;
    TimesOneMore(InitialCount(cfg), d);
    TimesOneMore(Max(0, cfg.maxAdjustments), d);
  }

  lemma {:induction false} SumOfAccounts(cfg: Config, ss: seq<Stretch>, ts: seq<Tally>, week: int)
    requires AreAccounts(cfg, ss, ts)
    ensures Amounts(cfg, WeekSum(ss, ts, week), DeployedStretches(cfg, ss, week), SkippedStretches(cfg, ss, week))
  {
    hide InitialCount, IsSkipped, IsDeployed, WeekOf, Amounts, IsAccountOf, Plus;
    if ss == [] {
      NoAmounts(cfg);
    } else {
      var n := |ss| - 1;
      SumOfAccounts(cfg, ss[..n], ts[..n], week);
      assert IsAccount(cfg, ss[n], ts[n]);
      if IsDeployed(cfg, ss[n]) {
        DeployedIsOpen(cfg, ss[n]);
      }
      AmountsAdd(cfg, WeekSum(ss[..n], ts[..n], week), DeployedStretches(cfg, ss[..n], week),
                 SkippedStretches(cfg, ss[..n], week), ts[n], IsDeployed(cfg, ss[n]), IsSkipped(cfg, ss[n]));
      NothingAdds(WeekSum(ss[..n], ts[..n], week));
    }
  }

  lemma NoAmounts(cfg: Config)
    ensures Amounts(cfg, NOTHING, 0, 0)
  {
  }

  /** The account of a week on any run: as many corridors as stretches with a deploying bar, as many skips as stretches
      with an early blocked bar, and for each corridor at most the allowed adjustments. */
  lemma AccountOfWeek(cfg: Config, bars: seq<Bar>, week: int)
    ensures var t := TallyOf(Run(cfg, bars).actions, week);
            var d := DeployedStretches(cfg, Stretches(bars), week);
            && t.deploys == InitialCount(cfg) * d
            && t.skips == SkippedStretches(cfg, Stretches(bars), week)
            && t.adjustments <= Max(0, cfg.maxAdjustments) * d
            && (d == 0 ==> t.adjustments == t.aborts == 0)
            && (d > 0 ==> InitialCount(cfg) > 0)
  {
    hide TallyOf, WeekSum, Run, Stretches, Tallies, InitialCount, AreAccounts;
    WeekIsSumOfStretches(cfg, bars, week);
    SumOfAccounts(cfg, Stretches(bars), Tallies(cfg, bars), week);
  }

  lemma CountAgainstOne(a: nat, d: nat)
    requires d > 0 ==> a > 0
    ensures a * d == 0 || a * d == a <==> d <= 1
  {
    if d >= 2 {
      TimesOneMore(a, d - 1);
      assert a * (d - 1) >= a by {
        TimesOneMore(a, d - 2);
      }
    }
  }

  /** The limits of a week hold on a run exactly when at most one stretch of the week opens a corridor and at most one
      records a skip. */
  lemma WeekIsSafeIffOneStretch(cfg: Config, bars: seq<Bar>, week: int)
    ensures WeekIsSafe(cfg, TallyOf(Run(cfg, bars).actions, week)) <==>
            DeployedStretches(cfg, Stretches(bars), week) <= 1 && SkippedStretches(cfg, Stretches(bars), week) <= 1
  {
    hide TallyOf, Run, Stretches, InitialCount, DeployedStretches, SkippedStretches;
    var d := DeployedStretches(cfg, Stretches(bars), week);
    AccountOfWeek(cfg, bars, week);
    CountAgainstOne(InitialCount(cfg), d);
    assert d <= 1 ==> Max(0, cfg.maxAdjustments) * d <= Max(0, cfg.maxAdjustments);
  }
}
