/** The summary of a weekly backtest. */
module WeeklySummary {
  import opened Options
  import opened Rounding
  import opened Sets
  import opened Sums
  import opened WeeklyModels
  import opened WeeklyStep
  import opened WeeklyInvariants
  import opened WeeklyRuns
  import opened WeeklyCounts
  import opened WeeklyStretches
  import opened WeeklyTotals
  import opened WeeklyLedger
  import opened WeeklyReport

  /** What turns points into dollars, and the capital that a return is measured on. */
  datatype Terms = Terms(multiplier: real, contracts: real, capital: real)

  function DollarsOf(terms: Terms, points: real): real {
    points * terms.multiplier * terms.contracts
  }

  datatype Summary = Summary(
    netPnl: real, netDollars: real, returnOnCapital: Option<real>, maxDeployment: real, worstDay: real, worstWeek: real,
    layerFactor: Option<real>, weekFactor: Option<real>, occupancy: real, avgAdjustments: real,
    weeksTraded: nat, weeksAborted: nat, maxActive: int, closedLayers: nat, winningLayers: nat, losingLayers: nat)

  const NO_SUMMARY := Summary(0.0, 0.0, None, 0.0, 0.0, 0.0, None, None, 0.0, 0.0, 0, 0, 0, 0, 0, 0)

  // ---------- Gains and losses ----------

  function GainPart<T>(f: T -> real): T -> real {
    x => MaxR(0.0, f(x))
  }

  function LossPart<T>(f: T -> real): T -> real {
    x => MaxR(0.0, -f(x))
  }

  function Gains<T>(f: T -> real, s: seq<T>): real {
    Sum(GainPart(f), s)
  }

  function Losses<T>(f: T -> real, s: seq<T>): real {
    Sum(LossPart(f), s)
  }

  /** Gains over losses, when there are losses. */
  function Factor<T>(f: T -> real, s: seq<T>): Option<real> {
    if Losses(f, s) > 0.0 then Some(Gains(f, s) / Losses(f, s)) else None
  }

  lemma {:induction false} GainsLessLosses<T>(f: T -> real, s: seq<T>)
    ensures Gains(f, s) - Losses(f, s) == Sum(f, s)
    ensures Gains(f, s) >= 0.0 && Losses(f, s) >= 0.0
    ensures Losses(f, s) == 0.0 <==> forall i :: 0 <= i < |s| ==> f(s[i]) >= 0.0
  {
    if s != [] {
      var n := |s| - 1;
      GainsLessLosses(f, s[..n]);
      assert s == s[..n] + [s[n]];
    }
  }

  function Magnitude<T>(f: T -> real): T -> real {
    x => Abs(f(x))
  }

  /** Gains and losses together are the magnitudes, and the factor times the losses is the gains. */
  lemma FactorTimesLosses<T>(f: T -> real, s: seq<T>)
    ensures Gains(f, s) + Losses(f, s) == Sum(Magnitude(f), s)
    ensures Factor(f, s).Some? ==> Factor(f, s).value * Losses(f, s) == Gains(f, s)
  {
    SumOfSum(GainPart(f), LossPart(f), Magnitude(f), s);
  }

  /** There is no profit factor without a loss; and it exceeds one exactly when the whole is a gain. */
  lemma FactorSaysProfit<T>(f: T -> real, s: seq<T>)
    ensures Factor(f, s).None? <==> forall i :: 0 <= i < |s| ==> f(s[i]) >= 0.0
    ensures Factor(f, s).Some? ==> Factor(f, s).value >= 0.0 && (Factor(f, s).value > 1.0 <==> Sum(f, s) > 0.0)
  {
    hide Gains, Losses;
    GainsLessLosses(f, s);
    if Factor(f, s).Some? {
      QuotientAboveOne(Gains(f, s), Losses(f, s));
    }
  }

  lemma QuotientAboveOne(a: real, b: real)
    requires a >= 0.0 && b > 0.0
    ensures a / b >= 0.0 && (a / b > 1.0 <==> a - b > 0.0)
  {
    hide Scaled;
    ScaledQuotient(a, b);
    ScaledOrder(a / b, 1.0, b);
    ScaledOrder(1.0, a / b, b);
    ScaledOrder(a / b, 0.0, b);
    ScaledOnce(b);
  }

  lemma ScaledOnce(b: real)
    ensures Scaled(1.0, b) == b && Scaled(0.0, b) == 0.0
  {
  }

  // ---------- Worst periods ----------

  /** The least value over the groups; nothing for no group. */
  function Least(f: int -> real, ks: seq<int>): real {
    if ks == [] then 0.0
    else if |ks| == 1 then f(ks[0])
    else MinR(Least(f, ks[..|ks| - 1]), f(ks[|ks| - 1]))
  }

  /** The least value is one of them, and the sum is at least as many times it as there are values. */
  lemma {:induction false} LeastIsLeast(f: int -> real, ks: seq<int>)
    requires ks != []
    ensures exists i :: 0 <= i < |ks| && f(ks[i]) == Least(f, ks)
    ensures forall i :: 0 <= i < |ks| ==> Least(f, ks) <= f(ks[i])
    ensures Repeated(Least(f, ks), |ks|) <= Sum(f, ks)
  {
    var n := |ks| - 1;
    if n == 0 {
      assert f(ks[0]) == Least(f, ks);
      assert Sum(f, ks) == Sum(f, []) + f(ks[0]);
    } else {
      LeastIsLeast(f, ks[..n]);
      var i :| 0 <= i < n && f(ks[..n][i]) == Least(f, ks[..n]);
      assert f(ks[i]) == Least(f, ks) || f(ks[n]) == Least(f, ks);
      assert forall k :: 0 <= k < n ==> ks[..n][k] == ks[k];
      RepeatedAdd(Least(f, ks), n, 1);
      RepeatedOrder(Least(f, ks), Least(f, ks[..n]), n);
    }
  }

  lemma RepeatedOrder(a: real, b: real, n: nat)
    requires a <= b
    ensures Repeated(a, n) <= Repeated(b, n)
  {
    Scale(a, b, n as real);
  }

  // ---------- Occupancy and deployment ----------

  function OccupiedPoints(curve: seq<EquityPoint>): nat {
    if curve == [] then 0
    else OccupiedPoints(curve[..|curve| - 1]) + (if curve[|curve| - 1].occupied then 1 else 0)
  }

  lemma {:induction false} OccupiedArePoints(curve: seq<EquityPoint>)
    ensures OccupiedPoints(curve) <= |curve|
  {
    if curve != [] {
      OccupiedArePoints(curve[..|curve| - 1]);
    }
  }

  lemma Share(part: nat, whole: nat)
    requires part <= whole && whole > 0
    ensures 0.0 <= part as real / whole as real <= 1.0
  {
  }

  function MostDeployed(curve: seq<EquityPoint>): real
    requires curve != []
  {
    var last := curve[|curve| - 1].deployment;
    if |curve| == 1 then last else MaxR(MostDeployed(curve[..|curve| - 1]), last)
  }

  /** The greatest deployment is that of some bar, and no bar has a greater one. */
  lemma {:induction false} MostIsMost(curve: seq<EquityPoint>)
    requires curve != []
    ensures exists i :: 0 <= i < |curve| && curve[i].deployment == MostDeployed(curve)
    ensures forall i :: 0 <= i < |curve| ==> curve[i].deployment <= MostDeployed(curve)
  {
    var n := |curve| - 1;
    if n == 0 {
      assert curve[0].deployment == MostDeployed(curve);
    } else {
      MostIsMost(curve[..n]);
      var i :| 0 <= i < n && curve[..n][i].deployment == MostDeployed(curve[..n]);
      assert curve[i].deployment == MostDeployed(curve) || curve[n].deployment == MostDeployed(curve);
      assert forall k :: 0 <= k < n ==> curve[..n][k] == curve[k];
    }
  }

  function MostActive(points: seq<EquityPoint>): int {
    if points == [] then 0 else Max(MostActive(points[..|points| - 1]), points[|points| - 1].activeLayers)
  }

  /** The greatest number of layers is that of some bar, or zero, and no bar has more. */
  lemma {:induction false} MostActiveIsMost(points: seq<EquityPoint>)
    ensures MostActive(points) == 0 || exists i :: 0 <= i < |points| && points[i].activeLayers == MostActive(points)
    ensures MostActive(points) >= 0 && forall i :: 0 <= i < |points| ==> points[i].activeLayers <= MostActive(points)
  {
    if points != [] {
      var n := |points| - 1;
      MostActiveIsMost(points[..n]);
      assert points[n].activeLayers == MostActive(points) || MostActive(points[..n]) == MostActive(points);
      assert forall k :: 0 <= k < n ==> points[..n][k] == points[k];
    }
  }

  // ---------- The summary ----------

  function AdjustmentsPerWeek(log: seq<Action>): real {
    var weeks := |WeeksWith(log, DeployInitial)|;
    if weeks == 0 then 0.0 else Total(log, AddAdjustment) as real / weeks as real
  }

  /** The P&L of each week, by the key of the week. */
  function WeekPnl(curve: seq<EquityPoint>): int -> real {
    GroupPnl(curve, WeekKey())
  }

  function DayPnl(curve: seq<EquityPoint>): int -> real {
    GroupPnl(curve, DayKey())
  }

  function Days(curve: seq<EquityPoint>): seq<int> {
    Keys(curve, DayKey())
  }

  function Weeks(curve: seq<EquityPoint>): seq<int> {
    Keys(curve, WeekKey())
  }

  function ComputeSummary(terms: Terms, log: seq<Action>, curve: seq<EquityPoint>): Summary {
    if curve == [] then NO_SUMMARY
    else
      var rows, net := BookedRows(log), curve[|curve| - 1].total;
      Summary(net, DollarsOf(terms, net),
              if terms.capital == 0.0 then None else Some(DollarsOf(terms, net) / terms.capital),
              DollarsOf(terms, MostDeployed(curve)),
              DollarsOf(terms, Least(DayPnl(curve), Days(curve))),
              DollarsOf(terms, Least(WeekPnl(curve), Weeks(curve))),
              Factor(RealizedOfRow(), rows), Factor(WeekPnl(curve), Weeks(curve)),
              OccupiedPoints(curve) as real / |curve| as real, AdjustmentsPerWeek(log),
              |WeeksWith(log, DeployInitial)|, |WeeksWith(log, Abort)|, MostActive(curve),
              |rows|, Winners(rows), Losers(rows))
  }

  lemma EnrichedKeepsKind(p: Pricer, a: Action)
    ensures Enriched(p, a).kind == a.kind && Enriched(p, a).week == a.week
  {
  }

  /** Enriching changes neither kinds nor weeks. */
  lemma {:induction false} EnrichingKeepsCounts(p: Pricer, log: seq<Action>, kind: ActionKind)
    ensures Total(EnrichAll(p, log), kind) == Total(log, kind)
    ensures WeekKeys(EnrichAll(p, log), kind) == WeekKeys(log, kind)
  {
    hide EnrichAll, Enriched;
    if log != [] {
      var n := |log| - 1;
      EnrichingKeepsCounts(p, log[..n], kind);
      EnrichedKeepsKind(p, log[n]);
      assert EnrichAll(p, log)[..n] == EnrichAll(p, log[..n]);
    }
  }

  ghost predicate LayersOnMoves(log: seq<Action>) {
    forall i :: 0 <= i < |log| ==> (log[i].layer.Some? <==> IsOpening(log[i].kind) || IsClosing(log[i].kind))
  }

  lemma {:induction false} RunRecordsArePlain(cfg: Config, bars: seq<Bar>)
    ensures Unpriced(Run(cfg, bars).actions) && LayersOnMoves(Run(cfg, bars).actions)
  {
    hide Step;
    if bars != [] {
      var before := bars[..|bars| - 1];
      RunRecordsArePlain(cfg, before);
      StepRecordsAreOfBar(cfg, Run(cfg, before).ctx, bars[|bars| - 1]);
    }
  }

  lemma {:induction false} OpenedAreDeployedOrAdded(log: seq<Action>)
    requires LayersOnMoves(log)
    ensures |LayersOf(true, log)| == Total(log, DeployInitial) + Total(log, AddAdjustment)
  {
    if log != [] {
      OpenedAreDeployedOrAdded(log[..|log| - 1]);
    }
  }

  lemma {:induction false} ActiveIsCapped(p: Pricer, cfg: Config, bars: seq<Bar>)
    ensures 0 <= MostActive(Curve(p, cfg, bars)) <= Max(0, cfg.maxActive)
  {
    hide Run, Step, RealizedOn, Unrealized, GrossRealizedOn, GrossUnrealized, Deployment, Occupied, TotalAfter;
    if bars != [] {
      ActiveIsCapped(p, cfg, bars[..|bars| - 1]);
      RunKeepsInv(cfg, bars);
      assert PointOf(p, cfg, bars).activeLayers == |Run(cfg, bars).ctx.active|;
    }
  }

  lemma SameCounts(p: Pricer, log: seq<Action>)
    ensures Total(EnrichAll(p, log), AddAdjustment) == Total(log, AddAdjustment)
    ensures WeeksWith(EnrichAll(p, log), DeployInitial) == WeeksWith(log, DeployInitial)
    ensures WeeksWith(EnrichAll(p, log), Abort) == WeeksWith(log, Abort)
  {
    EnrichingKeepsCounts(p, log, AddAdjustment);
    EnrichingKeepsCounts(p, log, DeployInitial);
    EnrichingKeepsCounts(p, log, Abort);
  }

  lemma {:induction false} LosersAreLosses(rows: seq<Cash>)
    requires forall i :: 0 <= i < |rows| ==> rows[i].Booked?
    ensures Losers(rows) == 0 <==> forall i :: 0 <= i < |rows| ==> RealizedOfRow()(rows[i]) >= 0.0
  {
    if rows != [] {
      var n := |rows| - 1;
      LosersAreLosses(rows[..n]);
      assert rows == rows[..n] + [rows[n]];
    }
  }

  lemma {:induction false} KeysOfPoints(points: seq<EquityPoint>, key: EquityPoint -> int)
    ensures points != [] ==> Keys(points, key) != []
  {
    if points != [] {
      var ks := Keys(points[..|points| - 1], key);
      assert Contains(ks, key(points[|points| - 1])) ==> ks != [];
    }
  }

  /** The worst group of a grouping by days, weeks or another key: no group is worse, and one is as bad, so that the net
      P&L is at least that many times the worst group. */
  lemma WorstGroup(p: Pricer, cfg: Config, bars: seq<Bar>, key: EquityPoint -> int)
    requires bars != []
    ensures var curve := Curve(p, cfg, bars);
            var f, ks := GroupPnl(curve, key), Keys(curve, key);
            && (exists i :: 0 <= i < |ks| && f(ks[i]) == Least(f, ks))
            && (forall i :: 0 <= i < |ks| ==> Least(f, ks) <= f(ks[i]))
            && Repeated(Least(f, ks), |ks|) <= TotalAfter(p, cfg, bars)
  {
    hide TotalAfter, Keys, Sum, Least, PointOf, GroupPnl, Repeated;
    var curve := Curve(p, cfg, bars);
    KeysOfPoints(curve, key);
    LeastIsLeast(GroupPnl(curve, key), Keys(curve, key));
    GroupsAddUpToTotal(p, cfg, bars, key);
  }

  /** What the money figures of any run say: the profit factor by week exists unless no week lost, and exceeds one
      exactly when the run made money; the one by layer exists unless no closed layer lost, and exceeds one exactly when
      the closed layers made money. */
  lemma FactorsOfRun(p: Pricer, cfg: Config, terms: Terms, bars: seq<Bar>)
    requires bars != []
    ensures var log, curve := Run(cfg, bars).actions, Curve(p, cfg, bars);
            var s := ComputeSummary(terms, EnrichAll(p, log), curve);
            && s.netPnl == TotalAfter(p, cfg, bars)
            && (s.weekFactor.None? <==> forall i :: 0 <= i < |Weeks(curve)| ==> WeekPnl(curve)(Weeks(curve)[i]) >= 0.0)
            && (s.weekFactor.Some? ==> (s.weekFactor.value > 1.0 <==> s.netPnl > 0.0))
            && (s.layerFactor.None? <==> s.losingLayers == 0)
            && (s.layerFactor.Some? ==> (s.layerFactor.value > 1.0 <==> RealizedOn(p, log) > 0.0))
  {
    hide Run, RealizedOn, Keys, BookedRows, Factor, Sum, GroupPnl, WeeksWith, Total, Losers, Least, MostDeployed,
         OccupiedPoints, MostActive, AdjustmentsPerWeek, RealizedOfRow;
    var log, curve := Run(cfg, bars).actions, Curve(p, cfg, bars);
    var rows := BookedRows(EnrichAll(p, log));
    assert curve[|bars| - 1] == PointOf(p, cfg, bars);
    FactorSaysProfit(WeekPnl(curve), Weeks(curve));
    DaysAndWeeksAddUp(p, cfg, bars);
    RunRecordsArePlain(cfg, bars);
    BookedRowsAreClosedLayers(p, log);
    FactorSaysProfit(RealizedOfRow(), rows);
    LosersAreLosses(rows);
  }

  lemma AdjustmentsAreCapped(log: seq<Action>, cap: nat)
    requires Total(log, AddAdjustment) <= cap * |WeeksWith(log, DeployInitial)|
    ensures 0.0 <= AdjustmentsPerWeek(log) <= cap as real
  {
    hide Total, WeeksWith;
    AverageAtMost(Total(log, AddAdjustment), cap, |WeeksWith(log, DeployInitial)|);
  }

  lemma AverageAtMost(total: nat, cap: nat, n: nat)
    requires total <= cap * n
    ensures n > 0 ==> 0.0 <= total as real / n as real <= cap as real
  {
    if n > 0 {
      assert total as real <= cap as real * n as real;
    }
  }

  lemma AverageTimesWeeks(log: seq<Action>)
    requires WeeksWith(log, DeployInitial) == {} ==> Total(log, AddAdjustment) == 0
    ensures 0.0 <= AdjustmentsPerWeek(log)
    ensures AdjustmentsPerWeek(log) * |WeeksWith(log, DeployInitial)| as real == Total(log, AddAdjustment) as real
  {
    hide Total, WeeksWith;
    if |WeeksWith(log, DeployInitial)| > 0 {
      AverageAtMost(Total(log, AddAdjustment), Total(log, AddAdjustment), |WeeksWith(log, DeployInitial)|);
    }
  }

  lemma NoDeployedWeeks(cfg: Config, bars: seq<Bar>)
    ensures WeeksWith(Run(cfg, bars).actions, DeployInitial) == {} ==> Total(Run(cfg, bars).actions, AddAdjustment) == 0
  {
    hide Run, Stretches, DeployedWeeks, WeeksWith, Total;
    var deployed := DeployedWeeks(cfg, Stretches(bars));
    AccountOfRun(cfg, bars);
    WeeksOfRun(cfg, bars);
    if deployed != [] {
      assert deployed[0] in Elements(deployed);
    }
  }

  lemma LayersOfSummary(p: Pricer, cfg: Config, terms: Terms, bars: seq<Bar>)
    requires bars != []
    ensures var log := Run(cfg, bars).actions;
            var s := ComputeSummary(terms, EnrichAll(p, log), Curve(p, cfg, bars));
            && s.closedLayers == |LayersOf(false, log)|
            && s.winningLayers + s.losingLayers <= s.closedLayers <= |LayersOf(true, log)|
            && s.maxActive <= Max(0, cfg.maxActive)
            && 0.0 <= s.occupancy <= 1.0
  {
    hide Run, RealizedOn, LayersOf, WeeksWith, Total, BookedRows, Factor, Keys, Least, GroupPnl, MostDeployed, PointOf,
         AdjustmentsPerWeek, OccupiedPoints, MostActive, Winners, Losers;
    var log := Run(cfg, bars).actions;
    RunRecordsArePlain(cfg, bars);
    BookedRowsAreClosedLayers(p, log);
    WinnersAndLosersAreRows(BookedRows(EnrichAll(p, log)));
    LogOpensAndClosesInOrder(cfg, bars);
    ActiveIsCapped(p, cfg, bars);
    OccupiedArePoints(Curve(p, cfg, bars));
    Share(OccupiedPoints(Curve(p, cfg, bars)), |bars|);
  }

  lemma WeeksOfSummary(p: Pricer, cfg: Config, terms: Terms, bars: seq<Bar>)
    requires bars != []
    ensures var log, d := Run(cfg, bars).actions, |DeployedWeeks(cfg, Stretches(bars))|;
            var s := ComputeSummary(terms, EnrichAll(p, log), Curve(p, cfg, bars));
            && s.weeksTraded == |WeeksWith(log, DeployInitial)|
            && s.weeksAborted <= s.weeksTraded <= d
            && s.avgAdjustments >= 0.0
            && s.avgAdjustments * s.weeksTraded as real == Total(log, AddAdjustment) as real
  {
    hide Run, LayersOf, WeeksWith, Total, BookedRows, Factor, Keys, Least, GroupPnl, MostDeployed, PointOf,
         AdjustmentsPerWeek, OccupiedPoints, MostActive, Winners, Losers, DeployedWeeks, Stretches;
    var log := Run(cfg, bars).actions;
    WeeksOfRun(cfg, bars);
    NoDeployedWeeks(cfg, bars);
    SameCounts(p, log);
    AverageTimesWeeks(EnrichAll(p, log));
  }

  /** What the counts of any run say, in whatever order its bars come: one closed row for each closed layer, the layers
      opened as whole corridors of deployed stretches and single adjustments, at most the allowed adjustments for each
      of these stretches, aborted weeks among the traded ones, and active layers within their limit. */
  lemma SummaryOfRun(p: Pricer, cfg: Config, terms: Terms, bars: seq<Bar>)
    requires bars != []
    ensures var log, d := Run(cfg, bars).actions, |DeployedWeeks(cfg, Stretches(bars))|;
            var s := ComputeSummary(terms, EnrichAll(p, log), Curve(p, cfg, bars));
            && s.closedLayers == |LayersOf(false, log)|
            && s.winningLayers + s.losingLayers <= s.closedLayers <= |LayersOf(true, log)|
            && |LayersOf(true, log)| == InitialCount(cfg) * d + Total(log, AddAdjustment)
            && Total(log, AddAdjustment) <= Max(0, cfg.maxAdjustments) * d
            && s.weeksAborted <= s.weeksTraded <= d
            && s.avgAdjustments >= 0.0
            && s.avgAdjustments * s.weeksTraded as real == Total(log, AddAdjustment) as real
            && s.maxActive <= Max(0, cfg.maxActive)
            && 0.0 <= s.occupancy <= 1.0
  {
    hide Run, LayersOf, WeeksWith, Total, ComputeSummary, DeployedWeeks, Stretches;
    LayersOfSummary(p, cfg, terms, bars);
    WeeksOfSummary(p, cfg, terms, bars);
    RunRecordsArePlain(cfg, bars);
    OpenedAreDeployedOrAdded(Run(cfg, bars).actions);
    AccountOfRun(cfg, bars);
  }

  /** For bars in time order each traded week has one deployed stretch, so that adjustments per week are within their
      limit. */
  lemma SummaryInOrder(p: Pricer, cfg: Config, terms: Terms, bars: seq<Bar>)
    requires bars != [] && InOrder(bars)
    ensures var log := Run(cfg, bars).actions;
            var s := ComputeSummary(terms, EnrichAll(p, log), Curve(p, cfg, bars));
            && s.weeksTraded == |DeployedWeeks(cfg, Stretches(bars))|
            && |LayersOf(true, log)| == InitialCount(cfg) * s.weeksTraded + Total(log, AddAdjustment)
            && 0.0 <= s.avgAdjustments <= Max(0, cfg.maxAdjustments) as real
  {
    hide Run, LayersOf, WeeksWith, Total, BookedRows, Factor, Keys, Least, GroupPnl, MostDeployed, PointOf,
         AdjustmentsPerWeek, DeployedWeeks, Stretches, InOrder;
    var log := Run(cfg, bars).actions;
    SummaryOfRun(p, cfg, terms, bars);
    WeeklyFiguresAreBounded(cfg, bars);
    SameCounts(p, log);
    AdjustmentsAreCapped(EnrichAll(p, log), Max(0, cfg.maxAdjustments));
  }

  // ---------- What each figure is ----------

  ghost function OccupiedPlaces(curve: seq<EquityPoint>): set<int> {
    set i | 0 <= i < |curve| && curve[i].occupied
  }

  ghost function GainPlaces(rows: seq<Cash>): set<int> {
    set i | 0 <= i < |rows| && rows[i].Booked? && rows[i].realized > 0.0
  }

  ghost function LossPlaces(rows: seq<Cash>): set<int> {
    set i | 0 <= i < |rows| && rows[i].Booked? && rows[i].realized < 0.0
  }

  lemma {:induction false} OccupiedAreCounted(curve: seq<EquityPoint>)
    ensures OccupiedPoints(curve) == |OccupiedPlaces(curve)|
  {
    if curve == [] {
      assert OccupiedPlaces(curve) == {};
    } else {
      var n := |curve| - 1;
      OccupiedAreCounted(curve[..n]);
      assert OccupiedPlaces(curve) == OccupiedPlaces(curve[..n]) + if curve[n].occupied then {n} else {};
    }
  }

  lemma PlacesOneMore(rows: seq<Cash>)
    requires rows != []
    ensures var n := |rows| - 1;
            && |GainPlaces(rows)|
               == |GainPlaces(rows[..n])| + (if rows[n].Booked? && rows[n].realized > 0.0 then 1 else 0)
            && |LossPlaces(rows)|
               == |LossPlaces(rows[..n])| + (if rows[n].Booked? && rows[n].realized < 0.0 then 1 else 0)
  {
    var n := |rows| - 1;
    assert forall i :: 0 <= i < n ==> rows[..n][i] == rows[i];
    assert GainPlaces(rows)
        == GainPlaces(rows[..n]) + if rows[n].Booked? && rows[n].realized > 0.0 then {n} else {};
    assert LossPlaces(rows)
        == LossPlaces(rows[..n]) + if rows[n].Booked? && rows[n].realized < 0.0 then {n} else {};
  }

  lemma {:induction false} RowsAreCounted(rows: seq<Cash>)
    requires forall i :: 0 <= i < |rows| ==> rows[i].Booked?
    ensures Winners(rows) == |GainPlaces(rows)| && Losers(rows) == |LossPlaces(rows)|
  {
    if rows == [] {
      assert GainPlaces(rows) == {} && LossPlaces(rows) == {};
    } else {
      hide GainPlaces, LossPlaces;
      RowsAreCounted(rows[..|rows| - 1]);
      PlacesOneMore(rows);
    }
  }

  /** The counts of any summary: rows with a gain, rows with a loss, and all rows; the most layers active on a bar; and
      the weeks with a deployment and with an abort. */
  lemma CountsOfSummary(terms: Terms, log: seq<Action>, curve: seq<EquityPoint>)
    requires curve != []
    ensures var s, rows := ComputeSummary(terms, log, curve), BookedRows(log);
            && s.winningLayers == |GainPlaces(rows)| && s.losingLayers == |LossPlaces(rows)|
            && s.closedLayers == |rows|
            && s.weeksTraded == |WeeksWith(log, DeployInitial)| && s.weeksAborted == |WeeksWith(log, Abort)|
            && (forall i :: 0 <= i < |curve| ==> curve[i].activeLayers <= s.maxActive)
            && (s.maxActive == 0 || exists i :: 0 <= i < |curve| && curve[i].activeLayers == s.maxActive)
  {
    hide BookedRows, Winners, Losers, Factor, WeeksWith, MostActive, AdjustmentsPerWeek, OccupiedPoints, MostDeployed,
         Least, GroupPnl, Keys, DollarsOf, GainPlaces, LossPlaces;
    RowsAreCounted(BookedRows(log));
    MostActiveIsMost(curve);
  }

  /** In dollars: points times the option multiplier times the contracts. */
  function InDollars(terms: Terms, points: real): real {
    points * (terms.multiplier * terms.contracts)
  }

  lemma DollarsAreProducts(terms: Terms, points: real)
    ensures DollarsOf(terms, points) == InDollars(terms, points)
  {
  }

  /** The money figures of any summary: the last total, in dollars and as a return on the capital; the deployment that
      no bar exceeds; the P&L of a day and of a week that no other one falls below; and the share of occupied bars. */
  lemma MoneyOfSummary(terms: Terms, log: seq<Action>, curve: seq<EquityPoint>)
    requires curve != []
    ensures var s := ComputeSummary(terms, log, curve);
            && s.netPnl == curve[|curve| - 1].total && s.netDollars == InDollars(terms, s.netPnl)
            && (s.returnOnCapital.None? <==> terms.capital == 0.0)
            && (s.returnOnCapital.Some? ==> s.returnOnCapital.value * terms.capital == s.netDollars)
            && s.occupancy * |curve| as real == |OccupiedPlaces(curve)| as real
    ensures exists i :: 0 <= i < |curve|
              && ComputeSummary(terms, log, curve).maxDeployment == InDollars(terms, curve[i].deployment)
              && forall j :: 0 <= j < |curve| ==> curve[j].deployment <= curve[i].deployment
    ensures exists i :: 0 <= i < |Days(curve)|
              && ComputeSummary(terms, log, curve).worstDay == InDollars(terms, DayPnl(curve)(Days(curve)[i]))
              && forall j :: 0 <= j < |Days(curve)| ==> DayPnl(curve)(Days(curve)[i]) <= DayPnl(curve)(Days(curve)[j])
    ensures exists i :: 0 <= i < |Weeks(curve)|
              && ComputeSummary(terms, log, curve).worstWeek == InDollars(terms, WeekPnl(curve)(Weeks(curve)[i]))
              && forall j :: 0 <= j < |Weeks(curve)| ==>
                   WeekPnl(curve)(Weeks(curve)[i]) <= WeekPnl(curve)(Weeks(curve)[j])
  {
    hide BookedRows, Winners, Losers, Factor, WeeksWith, MostActive, AdjustmentsPerWeek, OccupiedPoints, MostDeployed,
         Least, GroupPnl, Keys, DollarsOf, InDollars;
    forall points {
      DollarsAreProducts(terms, points);
    }
    OccupiedAreCounted(curve);
    MostIsMost(curve);
    KeysOfPoints(curve, DayKey());
    KeysOfPoints(curve, WeekKey());
    LeastIsLeast(DayPnl(curve), Days(curve));
    LeastIsLeast(WeekPnl(curve), Weeks(curve));
  }
}
