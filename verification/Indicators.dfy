/** The indicators of the signal engine: candles of two widths, moving averages, MACD, stochastics and the regime. */
module Indicators {
  import opened BarStore
  import opened Options
  import opened Rounding
  import opened SignalEngine
  import opened Sums

  type Width = w: int | w > 0 witness 1

  /** Spans and windows. */
  type Span = n: int | n >= 1 witness 1

  datatype IndicatorConfig = IndicatorConfig(
    fastWidth: Width, slowWidth: Width,
    emaFast: Span, emaMid: Span, emaSlow: Span,
    macdFast: Span, macdSlow: Span, macdSignal: Span,
    period: Span, smoothK: Span, smoothD: Span,
    minTrendSpread: real, maxRangeSpread: real, centerLookback: Span)

  const DEFAULT_INDICATORS := IndicatorConfig(
    15 * MINUTE, 30 * MINUTE, 5, 10, 20, 12, 26, 9, 14, 3, 3, 0.0008, 0.0006, 30)

  // ---------- Candles ----------

  datatype Candle = Candle(bucket: int, open: Price, high: Price, low: Price, close: Price, volume: real)

  /** Intervals of one width, counted from an origin. */
  datatype Bins = Bins(origin: int, width: Width)

  function BucketOf(bins: Bins, ts: int): int {
    (ts - bins.origin) / bins.width
  }

  const DAY := 24 * 60 * MINUTE

  /** Midnight before or at an instant; the index of a frame is in UTC. */
  function Midnight(ts: int): (midnight: int)
    ensures midnight <= ts < midnight + DAY && midnight % DAY == 0
  {
    ts - ts % DAY
  }

  /** Candles are counted from the first midnight of the frame. */
  function BinsOf(frame: Frame, width: Width): Bins
    requires frame != []
  {
    Bins(Midnight(frame[0].ts), width)
  }

  function CandleOf(row: Row, bins: Bins): Candle {
    Candle(BucketOf(bins, row.ts), row.open, row.high, row.low, row.close, row.volume)
  }

  function Merged(c: Candle, row: Row): Candle {
    c.(high := MaxR(c.high, row.high), low := MinR(c.low, row.low), close := row.close, volume := c.volume + row.volume)
  }

  /** The candles after one more row. */
  function Joined(cs: seq<Candle>, row: Row, bins: Bins): (joined: seq<Candle>)
    ensures joined != [] && |joined| <= |cs| + 1
  {
    var m := |cs| - 1;
    if cs != [] && cs[m].bucket == BucketOf(bins, row.ts) then cs[..m] + [Merged(cs[m], row)]
    else cs + [CandleOf(row, bins)]
  }

  /** Rows of one bucket of time make a candle; buckets without rows make none. */
  function Resample(f: Frame, bins: Bins): (cs: seq<Candle>)
    ensures f != [] ==> cs != []
    ensures |cs| <= |f|
  {
    if f == [] then [] else Joined(Resample(f[..|f| - 1], bins), f[|f| - 1], bins)
  }

  function Closes(cs: seq<Candle>): (xs: seq<real>)
    ensures |xs| == |cs|
    ensures forall i :: 0 <= i < |xs| ==> xs[i] == cs[i].close
  {
    seq(|cs|, i requires 0 <= i < |cs| => cs[i].close)
  }

  function VolumeOfRow(): Row -> real {
    (row: Row) => row.volume
  }

  function VolumeOfCandle(): Candle -> real {
    (c: Candle) => c.volume
  }

  ghost predicate BucketsRise(cs: seq<Candle>) {
    forall i, j :: 0 <= i < j < |cs| ==> cs[i].bucket < cs[j].bucket
  }

  function Slots(q: int, width: Width): int {
    q * width
  }

  lemma SlotOf(x: int, width: Width)
    ensures Slots(x / width, width) <= x < Slots(x / width, width) + width
  {
  }

  lemma SlotsRise(p: int, q: int, width: Width)
    ensures p > q ==> Slots(p, width) >= Slots(q, width) + width
  {
    if p > q {
      assert (p - q - 1) * width >= 0;
    }
  }

  lemma BucketsFollow(a: int, b: int, bins: Bins)
    requires a <= b
    ensures BucketOf(bins, a) <= BucketOf(bins, b)
  {
    hide Slots;
    SlotOf(a - bins.origin, bins.width);
    SlotOf(b - bins.origin, bins.width);
    SlotsRise(BucketOf(bins, a), BucketOf(bins, b), bins.width);
  }

  /** Candles of a sorted frame follow one another in time, end with the last close, and hold the volume of the rows. */
  lemma {:induction false} ResampleKeeps(f: Frame, bins: Bins)
    requires Sorted(f)
    ensures var cs := Resample(f, bins);
            && BucketsRise(cs)
            && Sum(VolumeOfCandle(), cs) == Sum(VolumeOfRow(), f)
            && (f != [] ==>
                  && cs[|cs| - 1].close == f[|f| - 1].close
                  && cs[|cs| - 1].bucket == BucketOf(bins, f[|f| - 1].ts))
  {
    hide Joined, BucketsRise, VolumeOfCandle;
    if f == [] {
      NoCandles();
    } else {
      var n := |f| - 1;
      ResampleKeeps(f[..n], bins);
      if n > 0 {
        BucketsFollow(f[n - 1].ts, f[n].ts, bins);
      }
      JoinedKeeps(Resample(f[..n], bins), f[n], bins);
    }
  }

  lemma NoCandles()
    ensures BucketsRise([])
    ensures Sum(VolumeOfCandle(), []) == 0.0
  {
  }

  lemma JoinedKeeps(cs: seq<Candle>, row: Row, bins: Bins)
    requires BucketsRise(cs) && (cs != [] ==> cs[|cs| - 1].bucket <= BucketOf(bins, row.ts))
    ensures var joined := Joined(cs, row, bins);
            && BucketsRise(joined)
            && Sum(VolumeOfCandle(), joined) == Sum(VolumeOfCandle(), cs) + row.volume
            && joined[|joined| - 1].close == row.close
            && joined[|joined| - 1].bucket == BucketOf(bins, row.ts)
  {
    hide Merged, Sum;
    var m := |cs| - 1;
    if cs != [] && cs[m].bucket == BucketOf(bins, row.ts) {
      MergedKeeps(cs[m], row);
      assert cs == cs[..m] + [cs[m]];
      SumSnoc(VolumeOfCandle(), cs[..m], cs[m]);
      SumSnoc(VolumeOfCandle(), cs[..m], Merged(cs[m], row));
    } else {
      SumSnoc(VolumeOfCandle(), cs, CandleOf(row, bins));
    }
  }

  lemma MergedKeeps(c: Candle, row: Row)
    ensures var m := Merged(c, row);
            m.bucket == c.bucket && m.close == row.close && m.volume == c.volume + row.volume
  {
  }

  // ---------- Moving averages ----------

  /** The weight of the newest value. */
  function Alpha(span: Span): real {
    2.0 / (span as real + 1.0)
  }

  function Blend(a: real, x: real, y: real): real {
    Scaled(x, a) + Scaled(y, 1.0 - a)
  }

  /** `ewm(span, adjust=False).mean()` at the end of a series. */
  function Ema(xs: seq<real>, span: Span): real
    requires xs != []
  {
    if |xs| == 1 then xs[0] else Blend(Alpha(span), xs[|xs| - 1], Ema(xs[..|xs| - 1], span))
  }

  lemma AlphaIsWeight(span: Span)
    ensures 0.0 < Alpha(span) <= 1.0
  {
    QuotientIsWeight(2.0, span as real + 1.0);
  }

  lemma QuotientIsWeight(x: real, d: real)
    requires 0.0 < x <= d
    ensures 0.0 < x / d <= 1.0
  {
  }

  lemma BlendIsBetween(a: real, x: real, y: real, lo: real, hi: real)
    requires 0.0 <= a <= 1.0 && lo <= x <= hi && lo <= y <= hi
    ensures lo <= Blend(a, x, y) <= hi
  {
    BlendRises(a, lo, lo, x, y);
    BlendRises(a, x, y, hi, hi);
    BlendOfEqual(a, lo);
    BlendOfEqual(a, hi);
  }

  lemma BlendOfEqual(a: real, x: real)
    ensures Blend(a, x, x) == x
  {
  }

  lemma ScaledKeepsOrder(x: real, x': real, c: real)
    requires x <= x' && c >= 0.0
    ensures Scaled(x, c) <= Scaled(x', c)
  {
    Scale(x, x', c);
  }

  lemma BlendRises(a: real, x: real, y: real, x': real, y': real)
    requires 0.0 <= a <= 1.0 && x <= x' && y <= y'
    ensures Blend(a, x, y) <= Blend(a, x', y')
  {
    hide Scaled;
    ScaledKeepsOrder(x, x', a);
    ScaledKeepsOrder(y, y', 1.0 - a);
  }

  /** A moving average stays between the least and the greatest value. */
  lemma {:induction false} EmaIsBetween(xs: seq<real>, span: Span, lo: real, hi: real)
    requires xs != [] && forall i :: 0 <= i < |xs| ==> lo <= xs[i] <= hi
    ensures lo <= Ema(xs, span) <= hi
  {
    hide Blend, Alpha;
    if |xs| > 1 {
      var n := |xs| - 1;
      EmaIsBetween(xs[..n], span, lo, hi);
      AlphaIsWeight(span);
      BlendIsBetween(Alpha(span), xs[n], Ema(xs[..n], span), lo, hi);
    }
  }

  function MacdLine(cfg: IndicatorConfig, xs: seq<real>): real
    requires xs != []
  {
    Ema(xs, cfg.macdFast) - Ema(xs, cfg.macdSlow)
  }

  function MacdLines(cfg: IndicatorConfig, xs: seq<real>): (lines: seq<real>)
    ensures |lines| == |xs|
  {
    if xs == [] then [] else MacdLines(cfg, xs[..|xs| - 1]) + [MacdLine(cfg, xs)]
  }

  function MacdHist(cfg: IndicatorConfig, xs: seq<real>): real
    requires xs != []
  {
    MacdLine(cfg, xs) - Ema(MacdLines(cfg, xs), cfg.macdSignal)
  }

  // ---------- Windows ----------

  /** The lowest low of the last candles, of all when there are fewer. */
  function LowOfLast(cs: seq<Candle>, n: Span): real
    requires cs != []
    decreases n
  {
    var last := cs[|cs| - 1].low;
    if |cs| == 1 || n == 1 then last else MinR(LowOfLast(cs[..|cs| - 1], n - 1), last)
  }

  function HighOfLast(cs: seq<Candle>, n: Span): real
    requires cs != []
    decreases n
  {
    var last := cs[|cs| - 1].high;
    if |cs| == 1 || n == 1 then last else MaxR(HighOfLast(cs[..|cs| - 1], n - 1), last)
  }

  /** The sum of the last values; nothing when there are too few of them or one is not a number. */
  function SumOfLast(xs: seq<Option<real>>, n: nat): Option<real>
    decreases n
  {
    if n == 0 then Some(0.0)
    else if xs == [] || xs[|xs| - 1].None? then None
    else
      var before := SumOfLast(xs[..|xs| - 1], n - 1);
      if before.None? then None else Some(before.value + xs[|xs| - 1].value)
  }

  function RollingMean(xs: seq<Option<real>>, n: Span): Option<real> {
    var sum := SumOfLast(xs, n);
    if sum.None? then None else Some(sum.value / n as real)
  }

  function Rsv(cs: seq<Candle>, period: Span): Option<real> {
    if |cs| < period then None
    else
      var lo, hi := LowOfLast(cs, period), HighOfLast(cs, period);
      if hi == lo then None else Some((cs[|cs| - 1].close - lo) / (hi - lo) * 100.0)
  }

  function Rsvs(cfg: IndicatorConfig, cs: seq<Candle>): (rs: seq<Option<real>>)
    ensures |rs| == |cs|
  {
    if cs == [] then [] else Rsvs(cfg, cs[..|cs| - 1]) + [Rsv(cs, cfg.period)]
  }

  function StochK(cfg: IndicatorConfig, cs: seq<Candle>): Option<real> {
    RollingMean(Rsvs(cfg, cs), cfg.smoothK)
  }

  function StochKs(cfg: IndicatorConfig, cs: seq<Candle>): (ks: seq<Option<real>>)
    ensures |ks| == |cs|
  {
    if cs == [] then [] else StochKs(cfg, cs[..|cs| - 1]) + [StochK(cfg, cs)]
  }

  function StochD(cfg: IndicatorConfig, cs: seq<Candle>): Option<real> {
    RollingMean(StochKs(cfg, cs), cfg.smoothD)
  }

  function Volumes(cs: seq<Candle>): (vs: seq<Option<real>>)
    ensures |vs| == |cs|
    ensures forall i :: 0 <= i < |cs| ==> vs[i] == Some(cs[i].volume)
  {
    seq(|cs|, i requires 0 <= i < |cs| => Some(cs[i].volume))
  }

  /** The last volume against the mean of the last twenty; not a number without twenty or without volume. */
  function VolumeRatio(cs: seq<Candle>): Option<real> {
    var mean := RollingMean(Volumes(cs), 20);
    if cs == [] || mean.None? || mean.value == 0.0 then None else Some(cs[|cs| - 1].volume / mean.value)
  }

  function MidOf(c: Candle): real {
    (c.high + c.low + c.close) / 3.0
  }

  function SumOfMids(cs: seq<Candle>, n: nat): real
    decreases n
  {
    if n == 0 || cs == [] then 0.0 else SumOfMids(cs[..|cs| - 1], n - 1) + MidOf(cs[|cs| - 1])
  }

  function RangeCenter(cs: seq<Candle>, lookback: Span): real
    requires cs != []
  {
    var n := Min(lookback, |cs|);
    SumOfMids(cs, n) / n as real
  }

  // ---------- The regime and the reading ----------

  predicate Falls(cfg: IndicatorConfig, cs: seq<Candle>)
    requires cs != []
  {
    var xs := Closes(cs);
    Ema(xs, cfg.emaFast) < Ema(xs, cfg.emaMid) < Ema(xs, cfg.emaSlow)
  }

  predicate Rises(cfg: IndicatorConfig, cs: seq<Candle>)
    requires cs != []
  {
    var xs := Closes(cs);
    Ema(xs, cfg.emaFast) > Ema(xs, cfg.emaMid) > Ema(xs, cfg.emaSlow)
  }

  /** `j` is `3k - 2d`, so that `j` and `k` are on the same side of `d`; comparisons with what is not a number fail. */
  predicate GainsMomentum(cfg: IndicatorConfig, cs: seq<Candle>)
    requires cs != []
  {
    var k, d := StochK(cfg, cs), StochD(cfg, cs);
    MacdHist(cfg, Closes(cs)) > 0.0 && k.Some? && d.Some? && k.value > d.value
    && 3.0 * k.value - 2.0 * d.value > d.value
  }

  predicate LosesMomentum(cfg: IndicatorConfig, cs: seq<Candle>)
    requires cs != []
  {
    var k, d := StochK(cfg, cs), StochD(cfg, cs);
    MacdHist(cfg, Closes(cs)) < 0.0 && k.Some? && d.Some? && k.value < d.value
    && 3.0 * k.value - 2.0 * d.value < d.value
  }

  function TrendSpread(cfg: IndicatorConfig, cs: seq<Candle>): real
    requires cs != []
  {
    var xs := Closes(cs);
    Abs(Ema(xs, cfg.emaFast) - Ema(xs, cfg.emaSlow)) / cs[|cs| - 1].close
  }

  function ClassifyRegime(cfg: IndicatorConfig, fast: seq<Candle>, slow: seq<Candle>): Regime {
    if |fast| < 40 || |slow| < 20 then NoTrade
    else
      var strong := TrendSpread(cfg, fast) >= cfg.minTrendSpread;
      if Rises(cfg, fast) && Rises(cfg, slow) && GainsMomentum(cfg, fast) && strong then TrendUp
      else if Falls(cfg, fast) && Falls(cfg, slow) && LosesMomentum(cfg, fast) && strong then TrendDown
      else if TrendSpread(cfg, fast) <= cfg.maxRangeSpread then Range
      else NoTrade
  }

  const NO_READING := Reading(NoTrade, 0.0, 0.0, None, 0.0, 0.0, 0.0, 0.0, 0.0)

  /** What the engine reads off a frame. */
  function Study(cfg: IndicatorConfig, frame: Frame): Reading {
    if frame == [] then NO_READING
    else
      var fast := Resample(frame, BinsOf(frame, cfg.fastWidth));
      var slow := Resample(frame, BinsOf(frame, cfg.slowWidth));
      var xs := Closes(fast);
      Reading(ClassifyRegime(cfg, fast, slow), Ema(xs, cfg.emaFast), MacdHist(cfg, xs), VolumeRatio(fast),
              LowOfLast(fast, 6), HighOfLast(fast, 6), RangeCenter(fast, cfg.centerLookback),
              HighOfLast(fast, 20), LowOfLast(fast, 20))
  }

  /** The market as the indicators see it. */
  function IndicatorMarket(cfg: IndicatorConfig, day: int -> int, opening: int -> int, regular: int -> bool): Market {
    Market(day, opening, regular, (f: Frame) => Study(cfg, f))
  }

  lemma {:induction false} LowIsLowest(cs: seq<Candle>, n: Span)
    requires cs != []
    ensures exists i :: 0 <= i < |cs| && |cs| - n <= i && cs[i].low == LowOfLast(cs, n)
    ensures forall i :: 0 <= i < |cs| && |cs| - n <= i ==> LowOfLast(cs, n) <= cs[i].low
    decreases n
  {
    var m := |cs| - 1;
    if m > 0 && n > 1 {
      LowIsLowest(cs[..m], n - 1);
      var i :| 0 <= i < m && m - (n - 1) <= i && cs[..m][i].low == LowOfLast(cs[..m], n - 1);
      assert cs[i].low == LowOfLast(cs[..m], n - 1);
      forall k | 0 <= k < |cs| && |cs| - n <= k
        ensures LowOfLast(cs, n) <= cs[k].low
      {
        assert k < m ==> cs[..m][k] == cs[k];
      }
      assert cs[i].low == LowOfLast(cs, n) || cs[m].low == LowOfLast(cs, n);
    } else {
      assert cs[m].low == LowOfLast(cs, n);
    }
  }

  lemma {:induction false} HighIsHighest(cs: seq<Candle>, n: Span)
    requires cs != []
    ensures exists i :: 0 <= i < |cs| && |cs| - n <= i && cs[i].high == HighOfLast(cs, n)
    ensures forall i :: 0 <= i < |cs| && |cs| - n <= i ==> cs[i].high <= HighOfLast(cs, n)
    decreases n
  {
    var m := |cs| - 1;
    if m > 0 && n > 1 {
      HighIsHighest(cs[..m], n - 1);
      var i :| 0 <= i < m && m - (n - 1) <= i && cs[..m][i].high == HighOfLast(cs[..m], n - 1);
      assert cs[i].high == HighOfLast(cs[..m], n - 1);
      forall k | 0 <= k < |cs| && |cs| - n <= k
        ensures cs[k].high <= HighOfLast(cs, n)
      {
        assert k < m ==> cs[..m][k] == cs[k];
      }
      assert cs[i].high == HighOfLast(cs, n) || cs[m].high == HighOfLast(cs, n);
    } else {
      assert cs[m].high == HighOfLast(cs, n);
    }
  }
}
