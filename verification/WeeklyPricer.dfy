/** The stylized butterfly pricer of the weekly corridor, in exact reals. */
module WeeklyPricer {
  import opened WeeklyModels
  import opened WeeklyStep
  import opened Rounding

  function EntryDebit(cfg: Config, layer: Layer): real {
    layer.width * cfg.debitPct
  }

  /** Slippage plus the commission of four contracts, per share. */
  function Friction(cfg: Config): real {
    cfg.slippage + cfg.commission * 4.0 / cfg.multiplier as real
  }

  function EntryCost(cfg: Config, layer: Layer): real {
    EntryDebit(cfg, layer) + Friction(cfg)
  }

  function DriftUnits(layer: Layer, spot: real): real {
    Abs(spot - layer.center) / MaxR(layer.width, 0.01)
  }

  function TimeProgress(layer: Layer, now: Stamp): real {
    var elapsedDays := MaxR(0.0, (now.Instant() - layer.createdAt.Instant()) as real / 86400.0);
    MinR(1.0, elapsedDays / Max(layer.dte, 1) as real)
  }

  function Proximity(drift: real): real {
    MaxR(0.0, 1.0 - MinR(drift, 1.8) / 1.8)
  }

  /** A fifth of the value is there on the first day, all of it at expiry. */
  function Maturity(progress: real): real {
    0.2 + 0.8 * progress
  }

  function InsideValue(drift: real, progress: real, peak: real, cost: real): real {
    cost + (peak - cost) * Proximity(drift) * Maturity(progress)
  }

  function OutsideValue(drift: real, progress: real, floor: real): real {
    floor * MaxR(0.0, 1.0 - progress * 0.55) * MaxR(0.0, 1.4 - drift)
  }

  /** The model value at a drift: one formula up to drift 1 and another one beyond. */
  function Profile(drift: real, progress: real, peak: real, cost: real, floor: real): real {
    if drift <= 1.0 then MaxR(floor, InsideValue(drift, progress, peak, cost))
    else MaxR(0.0, OutsideValue(drift, progress, floor))
  }

  function Peak(cfg: Config, layer: Layer): real {
    layer.width * cfg.peakPct
  }

  function Floor(cfg: Config, layer: Layer): real {
    layer.width * cfg.floorPct
  }

  /** A recorded cost of zero counts as no recorded cost. */
  function CostUsed(cfg: Config, layer: Layer, recorded: real): real {
    if recorded != 0.0 then recorded else EntryDebit(cfg, layer) + Friction(cfg)
  }

  function Mark(cfg: Config, layer: Layer, recorded: real, spot: real, now: Stamp): real {
    Profile(DriftUnits(layer, spot), TimeProgress(layer, now), Peak(cfg, layer), CostUsed(cfg, layer, recorded),
            Floor(cfg, layer))
  }

  // ---------- Shape ----------

  lemma Product(a: real, b: real)
    requires a >= 0.0 && b >= 0.0
    ensures a * b >= 0.0
  {
  }

  lemma QuotientFollows(a: real, b: real, c: real)
    requires a <= b && c > 0.0
    ensures a / c <= b / c
  {
    var p, q := a / c, b / c;
    assert p * c == a && q * c == b;
    if q < p {
      StrictScale(q, p, c);
    }
  }

  lemma StrictScale(a: real, b: real, c: real)
    requires a < b && c > 0.0
    ensures a * c < b * c
  {
  }

  lemma TimeProgressIsFraction(layer: Layer, now: Stamp)
    ensures 0.0 <= TimeProgress(layer, now) <= 1.0
  {
    var elapsed := MaxR(0.0, (now.Instant() - layer.createdAt.Instant()) as real / 86400.0);
    var days := Max(layer.dte, 1) as real;
    QuotientFollows(0.0, elapsed, days);
  }

  lemma DriftIsNonNegative(layer: Layer, spot: real)
    ensures DriftUnits(layer, spot) >= 0.0
  {
    QuotientFollows(0.0, Abs(spot - layer.center), MaxR(layer.width, 0.01));
  }

  /** The share of the way from cost to peak that is taken: between nothing and everything. */
  function Weight(drift: real, progress: real): real {
    Proximity(drift) * Maturity(progress)
  }

  lemma WeightIsFraction(drift: real, progress: real)
    requires 0.0 <= drift && 0.0 <= progress <= 1.0
    ensures 0.0 <= Weight(drift, progress) <= 1.0
  {
    var p, w := Proximity(drift), Maturity(progress);
    Product(p, w);
    Product(1.0 - p, w);
    assert (1.0 - p) * w == w - p * w;
  }

  lemma InsideIsMixture(drift: real, progress: real, peak: real, cost: real)
    ensures InsideValue(drift, progress, peak, cost) == cost + (peak - cost) * Weight(drift, progress)
  {
    Associates(peak - cost, Proximity(drift), Maturity(progress));
  }

  lemma Associates(a: real, b: real, c: real)
    ensures a * b * c == a * (b * c)
  {
  }

  lemma MixtureLiesBetween(a: real, b: real, w: real)
    requires 0.0 <= w <= 1.0
    ensures MinR(a, b) <= a + (b - a) * w <= MaxR(a, b)
  {
    if a <= b {
      Product(b - a, w);
      Product(b - a, 1.0 - w);
      assert (b - a) * (1.0 - w) == (b - a) - (b - a) * w;
    } else {
      Product(a - b, w);
      Product(a - b, 1.0 - w);
      assert (a - b) * (1.0 - w) == (a - b) - (a - b) * w;
      assert (b - a) * w == -((a - b) * w);
    }
  }

  lemma OutsideIsSmall(drift: real, progress: real, floor: real)
    requires drift > 1.0 && 0.0 <= progress <= 1.0 && floor >= 0.0
    ensures 0.0 <= OutsideValue(drift, progress, floor) <= floor
  {
    var a, b := MaxR(0.0, 1.0 - progress * 0.55), MaxR(0.0, 1.4 - drift);
    Product(floor, a);
    Product(floor * a, b);
    Product(floor, 1.0 - a);
    Product(floor * a, 1.0 - b);
    assert floor * (1.0 - a) == floor - floor * a;
    assert floor * a * (1.0 - b) == floor * a - floor * a * b;
  }

  lemma ProfileBounds(drift: real, progress: real, peak: real, cost: real, floor: real)
    requires 0.0 <= drift && 0.0 <= progress <= 1.0 && floor >= 0.0
    ensures 0.0 <= Profile(drift, progress, peak, cost, floor) <= MaxR(floor, MaxR(peak, cost))
  {
    if drift <= 1.0 {
      InsideIsMixture(drift, progress, peak, cost);
      WeightIsFraction(drift, progress);
      MixtureLiesBetween(cost, peak, Weight(drift, progress));
    } else {
      OutsideIsSmall(drift, progress, floor);
    }
  }

  /** A mark is never negative and never above peak, cost and floor, wherever the price is. */
  lemma MarkIsBounded(cfg: Config, layer: Layer, recorded: real, spot: real, now: Stamp)
    requires Floor(cfg, layer) >= 0.0
    ensures 0.0 <= Mark(cfg, layer, recorded, spot, now)
    ensures Mark(cfg, layer, recorded, spot, now)
            <= MaxR(Floor(cfg, layer), MaxR(Peak(cfg, layer), CostUsed(cfg, layer, recorded)))
  {
    DriftIsNonNegative(layer, spot);
    TimeProgressIsFraction(layer, now);
    ProfileBounds(DriftUnits(layer, spot), TimeProgress(layer, now), Peak(cfg, layer), CostUsed(cfg, layer, recorded),
                  Floor(cfg, layer));
  }

  lemma WeightFalls(near: real, far: real, progress: real)
    requires 0.0 <= near <= far && 0.0 <= progress <= 1.0
    ensures Weight(far, progress) <= Weight(near, progress)
  {
    Scale(Proximity(far), Proximity(near), Maturity(progress));
  }

  lemma OutsideFalls(near: real, far: real, progress: real, floor: real)
    requires 1.0 <= near <= far && 0.0 <= progress <= 1.0 && floor >= 0.0
    ensures OutsideValue(far, progress, floor) <= OutsideValue(near, progress, floor)
  {
    var a := floor * MaxR(0.0, 1.0 - progress * 0.55);
    Product(floor, MaxR(0.0, 1.0 - progress * 0.55));
    Scale(MaxR(0.0, 1.4 - far), MaxR(0.0, 1.4 - near), a);
  }

  /** With the peak below the cost, the inside formula has to stay under the floor as far as drift 1. */
  ghost predicate PeaksAtCenter(progress: real, peak: real, cost: real, floor: real) {
    peak >= cost || InsideValue(1.0, progress, peak, cost) <= floor
  }

  lemma InsideFalls(near: real, far: real, progress: real, peak: real, cost: real)
    requires 0.0 <= near <= far && 0.0 <= progress <= 1.0
    ensures peak >= cost ==> InsideValue(far, progress, peak, cost) <= InsideValue(near, progress, peak, cost)
    ensures peak <= cost ==> InsideValue(near, progress, peak, cost) <= InsideValue(far, progress, peak, cost)
  {
    InsideIsMixture(near, progress, peak, cost);
    InsideIsMixture(far, progress, peak, cost);
    WeightFalls(near, far, progress);
    var a, b := Weight(far, progress), Weight(near, progress);
    if peak >= cost {
      Product(b - a, peak - cost);
      assert (b - a) * (peak - cost) == (peak - cost) * b - (peak - cost) * a;
    }
    if peak <= cost {
      Product(b - a, cost - peak);
      assert (b - a) * (cost - peak) == (peak - cost) * a - (peak - cost) * b;
    }
  }

  lemma ProfileFalls(near: real, far: real, progress: real, peak: real, cost: real, floor: real)
    requires 0.0 <= near <= far && 0.0 <= progress <= 1.0 && floor >= 0.0
    requires PeaksAtCenter(progress, peak, cost, floor)
    ensures Profile(far, progress, peak, cost, floor) <= Profile(near, progress, peak, cost, floor)
  {
    if far <= 1.0 {
      InsideFalls(near, far, progress, peak, cost);
      InsideFalls(far, 1.0, progress, peak, cost);
    } else if near <= 1.0 {
      OutsideIsSmall(far, progress, floor);
    } else {
      OutsideFalls(near, far, progress, floor);
    }
  }

  lemma ProfileRisesOtherwise(progress: real, peak: real, cost: real, floor: real)
    requires 0.0 <= progress <= 1.0 && !PeaksAtCenter(progress, peak, cost, floor)
    ensures Profile(0.0, progress, peak, cost, floor) < Profile(1.0, progress, peak, cost, floor)
  {
    InsideIsMixture(0.0, progress, peak, cost);
    InsideIsMixture(1.0, progress, peak, cost);
    var a, b := Weight(1.0, progress), Weight(0.0, progress);
    assert a < b by {
      assert Proximity(0.0) == 1.0 && Proximity(1.0) == 1.0 - 1.0 / 1.8;
      StrictScale(Proximity(1.0), Proximity(0.0), Maturity(progress));
    }
    MixtureFalls(cost, peak, a, b);
  }

  lemma MixtureFalls(cost: real, peak: real, a: real, b: real)
    requires peak < cost && a < b
    ensures cost + (peak - cost) * b < cost + (peak - cost) * a
  {
    StrictScale(a, b, cost - peak);
    assert b * (cost - peak) == -((peak - cost) * b);
    assert a * (cost - peak) == -((peak - cost) * a);
  }

  ghost predicate FallsAwayFromCenter(cfg: Config, layer: Layer, recorded: real, now: Stamp) {
    forall near: real, far: real :: Abs(near - layer.center) <= Abs(far - layer.center) ==>
      Mark(cfg, layer, recorded, far, now) <= Mark(cfg, layer, recorded, near, now)
  }

  lemma DriftFollowsDistance(layer: Layer, near: real, far: real)
    requires Abs(near - layer.center) <= Abs(far - layer.center)
    ensures DriftUnits(layer, near) <= DriftUnits(layer, far)
  {
    QuotientFollows(Abs(near - layer.center), Abs(far - layer.center), MaxR(layer.width, 0.01));
  }

  /** The mark falls, or stays, as the price moves away from the center, across the change of formula at
      drift 1, exactly when the peak is no lower than the cost or the floor hides the difference. */
  lemma MarkFallsAwayFromCenter(cfg: Config, layer: Layer, recorded: real, now: Stamp)
    requires Floor(cfg, layer) >= 0.0
    ensures FallsAwayFromCenter(cfg, layer, recorded, now) <==>
            PeaksAtCenter(TimeProgress(layer, now), Peak(cfg, layer), CostUsed(cfg, layer, recorded), Floor(cfg, layer))
  {
    if PeaksAtCenter(TimeProgress(layer, now), Peak(cfg, layer), CostUsed(cfg, layer, recorded), Floor(cfg, layer)) {
      forall near: real, far: real | Abs(near - layer.center) <= Abs(far - layer.center)
        ensures Mark(cfg, layer, recorded, far, now) <= Mark(cfg, layer, recorded, near, now)
      {
        MarkFalls(cfg, layer, recorded, now, near, far);
      }
    } else {
      MarkRises(cfg, layer, recorded, now);
    }
  }

  lemma MarkFalls(cfg: Config, layer: Layer, recorded: real, now: Stamp, near: real, far: real)
    requires Floor(cfg, layer) >= 0.0 && Abs(near - layer.center) <= Abs(far - layer.center)
    requires PeaksAtCenter(
               TimeProgress(layer, now), Peak(cfg, layer), CostUsed(cfg, layer, recorded), Floor(cfg, layer))
    ensures Mark(cfg, layer, recorded, far, now) <= Mark(cfg, layer, recorded, near, now)
  {
    TimeProgressIsFraction(layer, now);
    DriftIsNonNegative(layer, near);
    DriftFollowsDistance(layer, near, far);
    ProfileFalls(DriftUnits(layer, near), DriftUnits(layer, far), TimeProgress(layer, now), Peak(cfg, layer),
                 CostUsed(cfg, layer, recorded), Floor(cfg, layer));
  }

  lemma MarkRises(cfg: Config, layer: Layer, recorded: real, now: Stamp)
    requires !PeaksAtCenter(
               TimeProgress(layer, now), Peak(cfg, layer), CostUsed(cfg, layer, recorded), Floor(cfg, layer))
    ensures !FallsAwayFromCenter(cfg, layer, recorded, now)
  {
    var w := MaxR(layer.width, 0.01);
    var edge := layer.center + w;
    TimeProgressIsFraction(layer, now);
    ProfileRisesOtherwise(
      TimeProgress(layer, now), Peak(cfg, layer), CostUsed(cfg, layer, recorded), Floor(cfg, layer));
    assert DriftUnits(layer, layer.center) == 0.0 / w == 0.0;
    assert DriftUnits(layer, edge) == w / w == 1.0;
    assert Mark(cfg, layer, recorded, layer.center, now) < Mark(cfg, layer, recorded, edge, now);
    assert Abs(layer.center - layer.center) <= Abs(edge - layer.center);
  }

  /** The default configuration but for a peak of a tenth of the width. */
  const LOW_PEAK := DEFAULT_CONFIG.(peakPct := 0.1)

  /** Such a peak lies below the cost of a layer, and on its first day a layer is worth more at its wing than at its
      center. */
  lemma MarksCanRise(stamp: Stamp)
    ensures var layer := MakeLayer(LOW_PEAK, Initial, 5000.0, stamp, stamp.Week(), 1);
            var cost := EntryCost(LOW_PEAK, layer);
            && Mark(LOW_PEAK, layer, cost, 5000.0, stamp) < Mark(LOW_PEAK, layer, cost, 5050.0, stamp)
            && !PeaksAtCenter(TimeProgress(layer, stamp), Peak(LOW_PEAK, layer), cost, Floor(LOW_PEAK, layer))
  {
    var layer := MakeLayer(LOW_PEAK, Initial, 5000.0, stamp, stamp.Week(), 1);
    assert RoundStrike(5000.0, 5.0) == 5000.0 by {
      assert 5000.0 / 5.0 == 1000.0;
      RoundingIsUnique(1000.0, 1000);
    }
    assert layer.center == 5000.0 && layer.width == 50.0;
    assert TimeProgress(layer, stamp) == 0.0;
    assert EntryCost(LOW_PEAK, layer) == 11.056 && Peak(LOW_PEAK, layer) == 5.0 && Floor(LOW_PEAK, layer) == 2.5;
    assert DriftUnits(layer, 5000.0) == 0.0 && DriftUnits(layer, 5050.0) == 1.0;
    assert Proximity(0.0) == 1.0 && 0.4 < Proximity(1.0) < 0.5;
    assert Maturity(0.0) == 0.2;
    assert InsideValue(0.0, 0.0, 5.0, 11.056) == 9.8448;
    assert InsideValue(1.0, 0.0, 5.0, 11.056) > 10.4;
  }

  // ---------- Distance and time ----------

  /** Distance from the center in widths, as the pricer measures it, for a width of a cent or more. */
  lemma DriftIsDistance(layer: Layer, spot: real, d: real)
    requires layer.width >= 0.01 && Abs(spot - layer.center) == d * layer.width
    ensures DriftUnits(layer, spot) == d
  {
    assert (d * layer.width) / layer.width == d;
  }

  /** A layer starts at progress zero, and ends at one after its days to expiry; in between progress is the share of
      these days that is over. */
  lemma ProgressIsShareOfDays(layer: Layer, now: Stamp)
    ensures var elapsed, life := now.Instant() - layer.createdAt.Instant(), Max(layer.dte, 1) * DAY_SECONDS;
            && (elapsed <= 0 ==> TimeProgress(layer, now) == 0.0)
            && (elapsed >= life ==> TimeProgress(layer, now) == 1.0)
            && (0 <= elapsed <= life ==> TimeProgress(layer, now) * life as real == elapsed as real)
  {
    var elapsed, days := now.Instant() - layer.createdAt.Instant(), Max(layer.dte, 1);
    var q := elapsed as real / 86400.0;
    assert (days * DAY_SECONDS) as real == days as real * 86400.0;
    ShareOfDays(q, days as real);
    assert (q / days as real) * (days as real * 86400.0) == elapsed as real;
  }

  lemma ShareOfDays(q: real, days: real)
    requires days >= 1.0
    ensures q >= days ==> q / days >= 1.0
    ensures q <= days ==> q / days <= 1.0
    ensures 0.0 / days == 0.0
  {
    if q >= days {
      QuotientFollows(days, q, days);
    } else {
      QuotientFollows(q, days, days);
    }
    assert days / days == 1.0;
  }

  /** In a straight line from the peak at the center toward the cost, which it would reach at 1.8 widths, and of that a
      share. */
  function Tapered(d: real, peak: real, cost: real, share: real): real {
    cost + (peak - cost) * ((1.0 - d / 1.8) * share)
  }

  /** In a straight line to nothing at 1.4 widths. */
  function Tail(d: real, floor: real, share: real): real {
    floor * (1.4 - d) * share
  }

  /** What a layer is worth at a distance of `d` widths: on the first day a fifth of the way up, at expiry all of it;
      beyond one width 0.45 times the tail at expiry, and nothing from 1.4 widths on. */
  lemma MarkAtDistance(cfg: Config, layer: Layer, recorded: real, spot: real, now: Stamp, d: real)
    requires layer.width >= 0.01 && d >= 0.0 && Abs(spot - layer.center) == d * layer.width
    requires Floor(cfg, layer) >= 0.0
    ensures var elapsed, life := now.Instant() - layer.createdAt.Instant(), Max(layer.dte, 1) * DAY_SECONDS;
            var peak, cost, floor := Peak(cfg, layer), CostUsed(cfg, layer, recorded), Floor(cfg, layer);
            var mark := Mark(cfg, layer, recorded, spot, now);
            && (d <= 1.0 && elapsed <= 0 ==> mark == MaxR(floor, Tapered(d, peak, cost, 0.2)))
            && (d <= 1.0 && elapsed >= life ==> mark == MaxR(floor, Tapered(d, peak, cost, 1.0)))
            && (1.0 < d <= 1.4 && elapsed <= 0 ==> mark == Tail(d, floor, 1.0))
            && (1.0 < d <= 1.4 && elapsed >= life ==> mark == Tail(d, floor, 0.45))
            && (d >= 1.4 ==> mark == 0.0)
  {
    DriftIsDistance(layer, spot, d);
    ProgressIsShareOfDays(layer, now);
    TimeProgressIsFraction(layer, now);
    hide DriftUnits, TimeProgress, Peak, Floor, CostUsed, Tapered, Tail, Profile;
    ProfileAt(d, TimeProgress(layer, now), Peak(cfg, layer), CostUsed(cfg, layer, recorded), Floor(cfg, layer));
  }

  lemma ProfileAt(d: real, progress: real, peak: real, cost: real, floor: real)
    requires d >= 0.0 && 0.0 <= progress <= 1.0 && floor >= 0.0
    ensures d <= 1.0 && progress == 0.0 ==>
              Profile(d, progress, peak, cost, floor) == MaxR(floor, Tapered(d, peak, cost, 0.2))
    ensures d <= 1.0 && progress == 1.0 ==>
              Profile(d, progress, peak, cost, floor) == MaxR(floor, Tapered(d, peak, cost, 1.0))
    ensures 1.0 < d <= 1.4 && progress == 0.0 ==> Profile(d, progress, peak, cost, floor) == Tail(d, floor, 1.0)
    ensures 1.0 < d <= 1.4 && progress == 1.0 ==> Profile(d, progress, peak, cost, floor) == Tail(d, floor, 0.45)
    ensures d >= 1.4 ==> Profile(d, progress, peak, cost, floor) == 0.0
  {
    if d <= 1.0 {
      InsideIsMixture(d, progress, peak, cost);
      assert Proximity(d) == 1.0 - d / 1.8;
    } else {
      OutsideIsSmall(d, progress, floor);
      var a := MaxR(0.0, 1.0 - progress * 0.55);
      Product(floor, MaxR(0.0, 1.4 - d));
      Associates(floor, a, MaxR(0.0, 1.4 - d));
      if progress == 0.0 {
        assert a == 1.0;
      }
      if progress == 1.0 {
        assert a == 0.45;
      }
    }
  }

  /** With the peak no lower than the cost, a mark within one width rises with time; beyond one width it falls. */
  lemma MarkFollowsTime(cfg: Config, layer: Layer, recorded: real, spot: real, now: Stamp, later: Stamp)
    requires Floor(cfg, layer) >= 0.0 && now.Instant() <= later.Instant()
    requires Peak(cfg, layer) >= CostUsed(cfg, layer, recorded)
    ensures DriftUnits(layer, spot) <= 1.0 ==>
              Mark(cfg, layer, recorded, spot, now) <= Mark(cfg, layer, recorded, spot, later)
    ensures DriftUnits(layer, spot) > 1.0 ==>
              Mark(cfg, layer, recorded, spot, later) <= Mark(cfg, layer, recorded, spot, now)
  {
    ProgressFollowsTime(layer, now, later);
    DriftIsNonNegative(layer, spot);
    TimeProgressIsFraction(layer, now);
    TimeProgressIsFraction(layer, later);
    hide TimeProgress, DriftUnits, Peak, Floor, CostUsed;
    ProfileFollowsTime(DriftUnits(layer, spot), TimeProgress(layer, now), TimeProgress(layer, later),
                       Peak(cfg, layer), CostUsed(cfg, layer, recorded), Floor(cfg, layer));
  }

  lemma ProgressFollowsTime(layer: Layer, now: Stamp, later: Stamp)
    requires now.Instant() <= later.Instant()
    ensures TimeProgress(layer, now) <= TimeProgress(layer, later)
  {
    var a := MaxR(0.0, (now.Instant() - layer.createdAt.Instant()) as real / 86400.0);
    var b := MaxR(0.0, (later.Instant() - layer.createdAt.Instant()) as real / 86400.0);
    QuotientFollows(a, b, Max(layer.dte, 1) as real);
  }

  lemma ProfileFollowsTime(d: real, p: real, q: real, peak: real, cost: real, floor: real)
    requires d >= 0.0 && 0.0 <= p <= q <= 1.0 && floor >= 0.0 && peak >= cost
    ensures d <= 1.0 ==> Profile(d, p, peak, cost, floor) <= Profile(d, q, peak, cost, floor)
    ensures d > 1.0 ==> Profile(d, q, peak, cost, floor) <= Profile(d, p, peak, cost, floor)
  {
    InsideFollowsTime(d, p, q, peak, cost);
    OutsideFollowsTime(d, p, q, floor);
    hide InsideValue, OutsideValue;
  }

  lemma InsideFollowsTime(d: real, p: real, q: real, peak: real, cost: real)
    requires d >= 0.0 && 0.0 <= p <= q <= 1.0 && peak >= cost
    ensures InsideValue(d, p, peak, cost) <= InsideValue(d, q, peak, cost)
  {
    InsideIsMixture(d, p, peak, cost);
    InsideIsMixture(d, q, peak, cost);
    assert Maturity(p) <= Maturity(q) && Proximity(d) >= 0.0;
    ProductOrder(Maturity(p), Maturity(q), Proximity(d));
    hide InsideValue, Maturity, Proximity;
    ProductOrder(Weight(d, p), Weight(d, q), peak - cost);
  }

  lemma OutsideFollowsTime(d: real, p: real, q: real, floor: real)
    requires 0.0 <= p <= q <= 1.0 && floor >= 0.0
    ensures OutsideValue(d, q, floor) <= OutsideValue(d, p, floor)
  {
    var a, b, c := MaxR(0.0, 1.0 - p * 0.55), MaxR(0.0, 1.0 - q * 0.55), MaxR(0.0, 1.4 - d);
    ProductOrder(b, a, floor);
    Scale(floor * b, floor * a, c);
  }

  lemma ProductOrder(a: real, b: real, c: real)
    requires a <= b && c >= 0.0
    ensures c * a <= c * b
  {
    Scale(a, b, c);
  }

  /** The cost of a layer: the share of its width and friction, which is slippage and the commission of four
      contracts. A recorded cost other than zero replaces it in a mark. */
  lemma CostsOfLayer(cfg: Config, layer: Layer, recorded: real)
    ensures var friction := cfg.slippage + 4.0 * (cfg.commission / cfg.multiplier as real);
            var cost := layer.width * cfg.debitPct + friction;
            && Friction(cfg) == friction && EntryDebit(cfg, layer) == layer.width * cfg.debitPct
            && EntryCost(cfg, layer) == cost
            && CostUsed(cfg, layer, 0.0) == cost
            && (recorded != 0.0 ==> CostUsed(cfg, layer, recorded) == recorded)
  {
    FourTimes(cfg.commission, cfg.multiplier as real);
  }

  lemma FourTimes(a: real, b: real)
    requires b != 0.0
    ensures a * 4.0 / b == 4.0 * (a / b)
  {
    assert a / b * b == a;
  }
}
