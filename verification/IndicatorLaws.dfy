/** What the indicators measure, in terms of rows and candles. */
module IndicatorLaws {
  import opened BarStore
  import opened Indicators
  import opened Options
  import opened Rounding
  import opened SignalEngine
  import opened Sums

  // ---------- Candles ----------

  /** The rows `a` to `b` are those of the candle's interval: it opens with the first and closes with the last, its
      extremes are theirs, and its volume is all of theirs. */
  ghost predicate IsCandleOf(f: Frame, bins: Bins, c: Candle, a: nat, b: nat) {
    && a < b <= |f|
    && (forall i :: 0 <= i < |f| ==> ((f[i].ts - bins.origin) / bins.width == c.bucket <==> a <= i < b))
    && c.open == f[a].open && c.close == f[b - 1].close
    && IsLeast(f, c.low, a, b) && IsGreatest(f, c.high, a, b)
    && c.volume == Sum(VolumeOfRow(), f[a..b])
  }

  ghost predicate IsLeast(f: Frame, low: real, a: nat, b: nat)
    requires a < b <= |f|
  {
    && (forall i :: a <= i < b ==> low <= f[i].low)
    && (exists i :: a <= i < b && f[i].low == low)
  }

  ghost predicate IsGreatest(f: Frame, high: real, a: nat, b: nat)
    requires a < b <= |f|
  {
    && (forall i :: a <= i < b ==> f[i].high <= high)
    && (exists i :: a <= i < b && f[i].high == high)
  }

  lemma StartsCandle(f: Frame, bins: Bins, row: Row)
    requires forall i :: 0 <= i < |f| ==> BucketOf(bins, f[i].ts) < BucketOf(bins, row.ts)
    ensures IsCandleOf(f + [row], bins, CandleOf(row, bins), |f|, |f| + 1)
  {
    var g := f + [row];
    assert g[|f|..|f| + 1] == [row] && [row][..0] == [];
    assert g[|f|] == row;
    assert Sum(VolumeOfRow(), [row]) == Sum(VolumeOfRow(), []) + row.volume;
  }

  lemma ExtremesStay(f: Frame, row: Row, low: real, high: real, a: nat, b: nat)
    requires a < b <= |f| && IsLeast(f, low, a, b) && IsGreatest(f, high, a, b)
    ensures IsLeast(f + [row], low, a, b) && IsGreatest(f + [row], high, a, b)
    ensures b == |f| ==> IsLeast(f + [row], MinR(low, row.low), a, |f| + 1)
    ensures b == |f| ==> IsGreatest(f + [row], MaxR(high, row.high), a, |f| + 1)
  {
    var g := f + [row];
    assert forall i :: 0 <= i < |f| ==> g[i] == f[i];
    assert g[|f|] == row;
    var i :| a <= i < b && f[i].low == low;
    var j :| a <= j < b && f[j].high == high;
    assert g[i].low == low && g[j].high == high;
  }

  lemma KeepsCandle(f: Frame, bins: Bins, row: Row, c: Candle, a: nat, b: nat)
    requires IsCandleOf(f, bins, c, a, b) && c.bucket != BucketOf(bins, row.ts)
    ensures IsCandleOf(f + [row], bins, c, a, b)
  {
    hide Sum, IsLeast, IsGreatest;
    var g := f + [row];
    ExtremesStay(f, row, c.low, c.high, a, b);
    assert g[a..b] == f[a..b];
    assert forall i :: 0 <= i < |f| ==> g[i] == f[i];
  }

  lemma ExtendsCandle(f: Frame, bins: Bins, row: Row, c: Candle, a: nat)
    requires IsCandleOf(f, bins, c, a, |f|) && c.bucket == BucketOf(bins, row.ts)
    ensures IsCandleOf(f + [row], bins, Merged(c, row), a, |f| + 1)
  {
    hide Sum, IsLeast, IsGreatest;
    var g := f + [row];
    ExtremesStay(f, row, c.low, c.high, a, |f|);
    assert g[a..|f| + 1] == f[a..|f|] + [row];
    SumSnoc(VolumeOfRow(), f[a..|f|], row);
    assert forall i :: 0 <= i < |f| ==> g[i] == f[i];
  }

  ghost predicate IsCandle(f: Frame, bins: Bins, c: Candle) {
    exists a: nat, b: nat :: IsCandleOf(f, bins, c, a, b)
  }

  ghost predicate AreCandlesOf(f: Frame, bins: Bins, cs: seq<Candle>) {
    forall k :: 0 <= k < |cs| ==> IsCandle(f, bins, cs[k])
  }

  /** Every candle of a sorted frame is the candle of the rows of its interval. */
  lemma {:induction false} CandlesAreOfRows(f: Frame, bins: Bins)
    requires Sorted(f)
    ensures AreCandlesOf(f, bins, Resample(f, bins))
  {
    hide Joined, IsCandleOf, BucketOf;
    if f != [] {
      var n := |f| - 1;
      CandlesAreOfRows(f[..n], bins);
      ResampleKeeps(f[..n], bins);
      assert f == f[..n] + [f[n]];
      OneRowMore(f[..n], bins, Resample(f[..n], bins), f[n]);
    }
  }

  lemma OneRowMore(f: Frame, bins: Bins, cs: seq<Candle>, row: Row)
    requires AreCandlesOf(f, bins, cs) && BucketsRise(cs) && Sorted(f + [row]) && (f != [] <==> cs != [])
    requires f != [] ==> cs[|cs| - 1].bucket == BucketOf(bins, f[|f| - 1].ts)
    ensures AreCandlesOf(f + [row], bins, Joined(cs, row, bins))
  {
    hide IsCandleOf, BucketOf, Merged, CandleOf;
    var m, joined := |cs| - 1, Joined(cs, row, bins);
    forall k | 0 <= k < |joined|
      ensures IsCandle(f + [row], bins, joined[k])
    {
      RowsBefore(f, bins, row);
      if k < m || (k == m && cs[m].bucket != BucketOf(bins, row.ts)) {
        var a: nat, b: nat :| IsCandleOf(f, bins, cs[k], a, b);
        KeepsCandle(f, bins, row, cs[k], a, b);
        assert joined[k] == cs[k];
      } else if k == m {
        var a: nat, b: nat :| IsCandleOf(f, bins, cs[m], a, b);
        LastCandleEnds(f, bins, cs[m], a, b);
        ExtendsCandle(f, bins, row, cs[m], a);
        assert joined[k] == Merged(cs[m], row);
      } else {
        assert joined[k] == CandleOf(row, bins);
        StartsCandle(f, bins, row);
      }
    }
  }

  lemma RowsBefore(f: Frame, bins: Bins, row: Row)
    requires Sorted(f + [row])
    ensures forall i :: 0 <= i < |f| ==> BucketOf(bins, f[i].ts) <= BucketOf(bins, row.ts)
    ensures f != [] ==> forall i :: 0 <= i < |f| ==> BucketOf(bins, f[i].ts) <= BucketOf(bins, f[|f| - 1].ts)
  {
    hide BucketOf;
    var g := f + [row];
    forall i | 0 <= i < |f|
      ensures BucketOf(bins, f[i].ts) <= BucketOf(bins, row.ts)
      ensures BucketOf(bins, f[i].ts) <= BucketOf(bins, f[|f| - 1].ts)
    {
      assert g[i].ts < g[|f|].ts && (i < |f| - 1 ==> g[i].ts < g[|f| - 1].ts);
      BucketsFollow(f[i].ts, row.ts, bins);
      BucketsFollow(f[i].ts, f[|f| - 1].ts, bins);
    }
  }

  lemma LastCandleEnds(f: Frame, bins: Bins, c: Candle, a: nat, b: nat)
    requires IsCandleOf(f, bins, c, a, b) && c.bucket == BucketOf(bins, f[|f| - 1].ts)
    ensures b == |f|
  {
    assert (f[|f| - 1].ts - bins.origin) / bins.width == c.bucket;
  }

  // ---------- Averages ----------

  function Repeat(v: real, n: nat): seq<real> {
    if n == 0 then [] else Repeat(v, n - 1) + [v]
  }

  function Power(x: real, n: nat): real {
    if n == 0 then 1.0 else Power(x, n - 1) * x
  }

  /** The share that an average keeps of its distance when a value stays where it is. */
  function Remains(span: Span): real {
    (span as real - 1.0) / (span as real + 1.0)
  }

  /** Over constant values the distance of a moving average from the value shrinks geometrically. */
  lemma {:induction false} EmaDecays(xs: seq<real>, span: Span, v: real, n: nat)
    requires xs != []
    ensures Ema(xs + Repeat(v, n), span) - v == (Ema(xs, span) - v) * Power(Remains(span), n)
  {
    hide Ema, Remains, Blend, Alpha;
    if n == 0 {
      assert xs + Repeat(v, 0) == xs;
    } else {
      EmaDecays(xs, span, v, n - 1);
      var before := xs + Repeat(v, n - 1);
      assert xs + Repeat(v, n) == before + [v];
      EmaOfOneMore(before, v, span);
      BlendKeeps(span, v, Ema(before, span));
      Regroups(Ema(xs, span) - v, Power(Remains(span), n - 1), Remains(span));
    }
  }

  lemma EmaOfOneMore(xs: seq<real>, x: real, span: Span)
    requires xs != []
    ensures Ema(xs + [x], span) == Blend(Alpha(span), x, Ema(xs, span))
  {
    assert (xs + [x])[..|xs|] == xs;
  }

  lemma BlendKeeps(span: Span, v: real, y: real)
    ensures Blend(Alpha(span), v, y) - v == (y - v) * Remains(span)
  {
    var a := Alpha(span);
    RemainsIsRest(span);
    assert v * a + y * (1.0 - a) - v == (y - v) * (1.0 - a);
  }

  lemma RemainsIsRest(span: Span)
    ensures 1.0 - Alpha(span) == Remains(span)
  {
    var d := span as real + 1.0;
    assert 2.0 / d + (d - 2.0) / d == d / d == 1.0;
  }

  lemma Regroups(a: real, b: real, c: real)
    ensures a * b * c == a * (b * c)
  {
  }

  // ---------- Windows ----------

  function Value(): Option<real> -> real {
    (x: Option<real>) => if x.Some? then x.value else 0.0
  }

  /** The sum of the last values is theirs, and there is none with fewer of them or when one is not a number. */
  lemma {:induction false} SumOfLastIsSum(xs: seq<Option<real>>, n: nat)
    ensures SumOfLast(xs, n).Some? <==> n <= |xs| && forall i :: |xs| - n <= i < |xs| ==> xs[i].Some?
    ensures SumOfLast(xs, n).Some? ==> SumOfLast(xs, n).value == Sum(Value(), xs[|xs| - n..])
    decreases n
  {
    if n > 0 && xs != [] {
      var m := |xs| - 1;
      SumOfLastIsSum(xs[..m], n - 1);
      if n <= |xs| {
        assert xs[|xs| - n..] == xs[..m][m - (n - 1)..] + [xs[m]];
        SumSnoc(Value(), xs[..m][m - (n - 1)..], xs[m]);
        assert forall i :: |xs| - n <= i < m ==> xs[..m][i] == xs[i];
      }
    }
  }

  /** A rolling mean times its window is the sum of the last values. */
  lemma MeanTimesWindow(xs: seq<Option<real>>, n: Span)
    ensures RollingMean(xs, n).Some? <==> n <= |xs| && forall i :: |xs| - n <= i < |xs| ==> xs[i].Some?
    ensures RollingMean(xs, n).Some? ==> RollingMean(xs, n).value * n as real == Sum(Value(), xs[|xs| - n..])
  {
    hide SumOfLast;
    SumOfLastIsSum(xs, n);
  }

  /** The raw stochastic value tells where the close lies between the least and the greatest of the window: at nothing,
      at a hundred, or in between in proportion; a full window has one unless it is flat. */
  lemma RsvMeasures(cs: seq<Candle>, period: Span, lo: real, hi: real)
    requires |cs| >= period
    requires forall i :: |cs| - period <= i < |cs| ==> lo <= cs[i].low && cs[i].high <= hi
    requires exists i :: |cs| - period <= i < |cs| && cs[i].low == lo
    requires exists i :: |cs| - period <= i < |cs| && cs[i].high == hi
    ensures Rsv(cs, period).Some? <==> lo != hi
    ensures lo != hi ==> Rsv(cs, period).value * (hi - lo) == (cs[|cs| - 1].close - lo) * 100.0
  {
    hide LowOfLast, HighOfLast;
    LowIsLowest(cs, period);
    HighIsHighest(cs, period);
    assert LowOfLast(cs, period) == lo && HighOfLast(cs, period) == hi;
    if lo != hi {
      Undivided(cs[|cs| - 1].close - lo, hi - lo);
    }
  }

  lemma Undivided(a: real, b: real)
    requires b != 0.0
    ensures a / b * 100.0 * b == a * 100.0
  {
    assert a / b * b == a;
    Regroups(a / b, 100.0, b);
    Regroups(a / b, b, 100.0);
  }

  lemma {:induction false} RsvsAt(cfg: IndicatorConfig, cs: seq<Candle>, i: nat)
    requires i < |cs|
    ensures Rsvs(cfg, cs)[i] == Rsv(cs[..i + 1], cfg.period)
  {
    hide Rsv;
    var n := |cs| - 1;
    if i < n {
      RsvsAt(cfg, cs[..n], i);
      assert cs[..n][..i + 1] == cs[..i + 1];
    } else {
      assert cs[..i + 1] == cs;
    }
  }

  lemma {:induction false} StochKsAt(cfg: IndicatorConfig, cs: seq<Candle>, i: nat)
    requires i < |cs|
    ensures StochKs(cfg, cs)[i] == StochK(cfg, cs[..i + 1])
  {
    hide StochK;
    var n := |cs| - 1;
    if i < n {
      StochKsAt(cfg, cs[..n], i);
      assert cs[..n][..i + 1] == cs[..i + 1];
    } else {
      assert cs[..i + 1] == cs;
    }
  }

  /** The mean of the last values of a list, when there are enough of them and all are numbers. */
  ghost predicate IsMeanOfLast(x: Option<real>, xs: seq<Option<real>>, n: Span) {
    && (x.Some? <==> n <= |xs| && forall i :: |xs| - n <= i < |xs| ==> xs[i].Some?)
    && (x.Some? ==> x.value * n as real == Sum(Value(), xs[|xs| - n..]))
  }

  /** K is the mean of the last raw values, and D the mean of the last values of K; both have windows of their own. */
  lemma StochasticsAreMeans(cfg: IndicatorConfig, cs: seq<Candle>)
    ensures IsMeanOfLast(StochK(cfg, cs), Rsvs(cfg, cs), cfg.smoothK)
    ensures IsMeanOfLast(StochD(cfg, cs), StochKs(cfg, cs), cfg.smoothD)
  {
    RollingIsMean(Rsvs(cfg, cs), cfg.smoothK);
    RollingIsMean(StochKs(cfg, cs), cfg.smoothD);
    hide IsMeanOfLast, RollingMean;
  }

  lemma RollingIsMean(xs: seq<Option<real>>, n: Span)
    ensures IsMeanOfLast(RollingMean(xs, n), xs, n)
  {
    hide RollingMean;
    MeanTimesWindow(xs, n);
  }

  lemma {:induction false} LinesAt(cfg: IndicatorConfig, xs: seq<real>, i: nat)
    requires i < |xs|
    ensures MacdLines(cfg, xs)[i] == Ema(xs[..i + 1], cfg.macdFast) - Ema(xs[..i + 1], cfg.macdSlow)
  {
    hide Ema;
    var n := |xs| - 1;
    if i < n {
      LinesAt(cfg, xs[..n], i);
      assert xs[..n][..i + 1] == xs[..i + 1];
    } else {
      assert xs[..i + 1] == xs;
    }
  }

  /** The MACD histogram: how far the last difference of a fast and a slow average lies above the average of all these
      differences. */
  lemma HistIsDistance(cfg: IndicatorConfig, xs: seq<real>, lines: seq<real>)
    requires xs != [] && |lines| == |xs|
    requires forall i :: 0 <= i < |xs| ==>
               lines[i] == Ema(xs[..i + 1], cfg.macdFast) - Ema(xs[..i + 1], cfg.macdSlow)
    ensures MacdHist(cfg, xs) == lines[|lines| - 1] - Ema(lines, cfg.macdSignal)
  {
    hide Ema, MacdLines;
    forall i | 0 <= i < |xs|
      ensures MacdLines(cfg, xs)[i] == lines[i]
    {
      LinesAt(cfg, xs, i);
    }
    assert MacdLines(cfg, xs) == lines;
    assert xs[..|xs|] == xs;
  }

  /** The volume ratio: the last volume, as a share of the mean of the last twenty. */
  lemma RatioIsShareOfMean(cs: seq<Candle>)
    ensures VolumeRatio(cs).Some? <==> |cs| >= 20 && Sum(VolumeOfCandle(), cs[|cs| - 20..]) != 0.0
    ensures VolumeRatio(cs).Some? ==>
              VolumeRatio(cs).value * Sum(VolumeOfCandle(), cs[|cs| - 20..]) == 20.0 * cs[|cs| - 1].volume
  {
    hide RollingMean;
    var vs := Volumes(cs);
    MeanTimesWindow(vs, 20);
    if |cs| >= 20 {
      SumOfVolumes(cs, 20);
      var mean := RollingMean(vs, 20).value;
      if mean != 0.0 {
        ShareOfMean(cs[|cs| - 1].volume, mean);
      }
    }
  }

  lemma ShareOfMean(v: real, mean: real)
    requires mean != 0.0
    ensures v / mean * (mean * 20.0) == 20.0 * v && mean * 20.0 != 0.0
  {
    assert v / mean * mean == v;
    Regroups(v / mean, mean, 20.0);
  }

  lemma SumOfVolumes(cs: seq<Candle>, n: nat)
    requires n <= |cs|
    ensures Sum(Value(), Volumes(cs)[|cs| - n..]) == Sum(VolumeOfCandle(), cs[|cs| - n..])
  {
    SameSums(Volumes(cs)[|cs| - n..], cs[|cs| - n..]);
  }

  lemma {:induction false} SameSums(vs: seq<Option<real>>, cs: seq<Candle>)
    requires |vs| == |cs| && forall i :: 0 <= i < |vs| ==> vs[i] == Some(cs[i].volume)
    ensures Sum(Value(), vs) == Sum(VolumeOfCandle(), cs)
  {
    if vs != [] {
      SameSums(vs[..|vs| - 1], cs[..|cs| - 1]);
    }
  }

  function Third(): Candle -> real {
    (c: Candle) => (c.high + c.low + c.close) / 3.0
  }

  /** The range center: the mean, over the window or all candles when there are fewer, of a third of high, low and
      close. */
  lemma CenterIsMean(cs: seq<Candle>, lookback: Span)
    requires cs != []
    ensures var n := if lookback <= |cs| then lookback else |cs|;
            RangeCenter(cs, lookback) * n as real == Sum(Third(), cs[|cs| - n..])
  {
    hide SumOfMids;
    SumOfThirds(cs, Min(lookback, |cs|));
  }

  lemma {:induction false} SumOfThirds(cs: seq<Candle>, n: nat)
    requires n <= |cs|
    ensures SumOfMids(cs, n) == Sum(Third(), cs[|cs| - n..])
    decreases n
  {
    if n > 0 {
      var m := |cs| - 1;
      SumOfThirds(cs[..m], n - 1);
      assert cs[|cs| - n..] == cs[..m][m - (n - 1)..] + [cs[m]];
      SumSnoc(Third(), cs[..m][m - (n - 1)..], cs[m]);
    }
  }

  // ---------- The regime and the reading ----------

  /** What the regime asks of the averages, from fast to slow. */
  ghost predicate Aligned(cfg: IndicatorConfig, cs: seq<Candle>, up: bool)
    requires cs != []
  {
    var xs := Closes(cs);
    var a, b, c := Ema(xs, cfg.emaFast), Ema(xs, cfg.emaMid), Ema(xs, cfg.emaSlow);
    if up then a > b && b > c else a < b && b < c
  }

  /** What it asks of momentum: the histogram on one side, and K on the same side of D. */
  ghost predicate Drives(cfg: IndicatorConfig, cs: seq<Candle>, up: bool)
    requires cs != []
  {
    var hist, k, d := MacdHist(cfg, Closes(cs)), StochK(cfg, cs), StochD(cfg, cs);
    k.Some? && d.Some? && if up then hist > 0.0 && k.value > d.value else hist < 0.0 && k.value < d.value
  }

  /** How far apart the fast and the slow average are, as a share of the last close. */
  ghost predicate SpreadAtLeast(cfg: IndicatorConfig, cs: seq<Candle>, share: real)
    requires cs != []
  {
    var xs, close := Closes(cs), cs[|cs| - 1].close;
    var gap := Ema(xs, cfg.emaFast) - Ema(xs, cfg.emaSlow);
    gap / close >= share || -gap / close >= share
  }

  ghost predicate SpreadAtMost(cfg: IndicatorConfig, cs: seq<Candle>, share: real)
    requires cs != []
  {
    var xs, close := Closes(cs), cs[|cs| - 1].close;
    var gap := Ema(xs, cfg.emaFast) - Ema(xs, cfg.emaSlow);
    gap / close <= share && -gap / close <= share
  }

  ghost predicate Trends(cfg: IndicatorConfig, fast: seq<Candle>, slow: seq<Candle>, up: bool)
    requires fast != [] && slow != []
  {
    && Aligned(cfg, fast, up) && Aligned(cfg, slow, up) && Drives(cfg, fast, up)
    && SpreadAtLeast(cfg, fast, cfg.minTrendSpread)
  }

  lemma SpreadBothWays(cfg: IndicatorConfig, cs: seq<Candle>, share: real)
    requires cs != []
    ensures TrendSpread(cfg, cs) >= share <==> SpreadAtLeast(cfg, cs, share)
    ensures TrendSpread(cfg, cs) <= share <==> SpreadAtMost(cfg, cs, share)
  {
    hide Ema;
    var xs, close := Closes(cs), cs[|cs| - 1].close;
    Negated(Ema(xs, cfg.emaFast) - Ema(xs, cfg.emaSlow), close);
  }

  lemma Negated(a: real, b: Price)
    ensures (-a) / b == -(a / b)
    ensures a >= 0.0 <==> a / b >= 0.0
  {
  }

  /** The regime, in both directions: trends need both frames aligned, momentum and spread on the fast one; without a
      trend a small spread is a range; and with fewer than 40 fast or 20 slow candles there is no regime. */
  lemma RegimeMeans(cfg: IndicatorConfig, fast: seq<Candle>, slow: seq<Candle>)
    ensures var regime := ClassifyRegime(cfg, fast, slow);
            if |fast| < 40 || |slow| < 20 then regime == NoTrade
            else
              && (regime == TrendUp <==> Trends(cfg, fast, slow, true))
              && (regime == TrendDown <==> Trends(cfg, fast, slow, false))
              && (regime == Range <==>
                    && !Trends(cfg, fast, slow, true) && !Trends(cfg, fast, slow, false)
                    && SpreadAtMost(cfg, fast, cfg.maxRangeSpread))
  {
    hide Ema, MacdHist, StochK, StochD, TrendSpread, SpreadAtLeast, SpreadAtMost, Closes;
    if |fast| >= 40 && |slow| >= 20 {
      SpreadBothWays(cfg, fast, cfg.minTrendSpread);
      SpreadBothWays(cfg, fast, cfg.maxRangeSpread);
    }
  }

  /** What the reading of a frame holds: of fast candles the average, the histogram, the volume ratio, the extremes of
      the last six and twenty and the center; and the regime of both kinds of candles. */
  lemma ReadingMeans(cfg: IndicatorConfig, frame: Frame)
    requires frame != []
    ensures var r := Study(cfg, frame);
            var midnight := frame[0].ts - frame[0].ts % 86400000000000;
            var fast := Resample(frame, Bins(midnight, cfg.fastWidth));
            var slow := Resample(frame, Bins(midnight, cfg.slowWidth));
            var n := |fast|;
            && r.regime == ClassifyRegime(cfg, fast, slow)
            && r.emaFast == Ema(Closes(fast), cfg.emaFast)
            && r.macdHist == MacdHist(cfg, Closes(fast))
            && r.volumeRatio == VolumeRatio(fast)
            && r.rangeCenter == RangeCenter(fast, cfg.centerLookback)
            && (forall i :: 0 <= i < n && n - 6 <= i ==> r.swingLow <= fast[i].low && fast[i].high <= r.swingHigh)
            && (exists i :: 0 <= i < n && n - 6 <= i && r.swingLow == fast[i].low)
            && (exists i :: 0 <= i < n && n - 6 <= i && r.swingHigh == fast[i].high)
            && (forall i :: 0 <= i < n && n - 20 <= i ==> r.low20 <= fast[i].low && fast[i].high <= r.high20)
            && (exists i :: 0 <= i < n && n - 20 <= i && r.low20 == fast[i].low)
            && (exists i :: 0 <= i < n && n - 20 <= i && r.high20 == fast[i].high)
  {
    hide Resample, ClassifyRegime, Ema, MacdHist, VolumeRatio, RangeCenter, LowOfLast, HighOfLast;
    var fast := Resample(frame, BinsOf(frame, cfg.fastWidth));
    LowIsLowest(fast, 6);
    HighIsHighest(fast, 6);
    LowIsLowest(fast, 20);
    HighIsHighest(fast, 20);
  }
}
