/** A run of half-hour bars on which the engine, with all its default settings, sends a short entry whose target is
    below zero. */
module NegativeTargets {
  import opened BarStore
  import opened Calendar
  import opened Indicators
  import opened OptionBacktest
  import opened OptionLegs
  import opened OptionPlans
  import opened OptionSimulator
  import opened Options
  import opened Rounding
  import opened SignalEngine
  import opened SignalPipeline

  const DEFAULT_STRATEGY := StrategyConfig(
    600, 1.05, 0.0015, 0.0008, 0.0008, 1.5, 0.0012, 30, 30, 0.0, 1, 30, true, 1)

  // ---------- A market five hours behind UTC ----------

  const HALF_HOUR := 30 * MINUTE
  const HOUR := 60 * MINUTE

  function LocalDay(ts: int): int {
    (ts - 5 * HOUR) / DAY
  }

  function OpeningOf(day: int): int {
    day * DAY + 29 * HALF_HOUR
  }

  function CloseOf(day: int): int {
    day * DAY + 42 * HALF_HOUR
  }

  /** Weekdays from 9:30 to 16:00. */
  predicate IsRegular(ts: int) {
    var day := LocalDay(ts);
    IsWeekday(day) && OpeningOf(day) <= ts <= CloseOf(day)
  }

  const MARKET := IndicatorMarket(DEFAULT_INDICATORS, LocalDay, OpeningOf, IsRegular)

  const SETUP := Setup(DEFAULT_STRATEGY, MARKET)

  lemma ClosesFollowDays()
    ensures ClosesFollow(MARKET, CloseOf)
  {
  }

  // ---------- The bars ----------

  /** The weekdays in order. */
  function NthWeekday(m: nat): int {
    m + 2 * (m / 5)
  }

  /** Half hours of the bars since midnight (UTC) of day 0: fourteen on each weekday. */
  function SlotAt(i: nat): int {
    48 * NthWeekday(i / 14) + 29 + i % 14
  }

  /** A flat stock, one low close, and then the same close after a jump. */
  function RowAt(i: nat): Row {
    var ts := SlotAt(i) * HALF_HOUR;
    if i < 118 then Row(ts, 10.03, 10.04, 10.02, 10.03, 1000.0)
    else if i == 118 then Row(ts, 10.0, 10.0, 9.97, 10.0, 1000.0)
    else Row(ts, 10.0, 17.0, 9.97, 10.0, 2000.0)
  }

  function RowsTo(n: nat): (rows: seq<Row>)
    ensures |rows| == n
    ensures forall i :: 0 <= i < n ==> rows[i] == RowAt(i)
  {
    seq(n, i requires 0 <= i < n => RowAt(i))
  }

  function EventsTo(n: nat): (events: seq<Event>)
    ensures |events| == n
    ensures forall i :: 0 <= i < n ==> events[i] == Event("SPY", RowAt(i), true)
  {
    seq(n, i requires 0 <= i < n => Event("SPY", RowAt(i), true))
  }

  lemma WeekdaysRise(a: nat, b: nat)
    ensures a < b ==> NthWeekday(a) < NthWeekday(b)
    ensures IsWeekday(NthWeekday(a))
  {
    IsWeekdayNth(a);
    if a < b {
      assert a / 5 <= b / 5;
    }
  }

  lemma IsWeekdayNth(a: nat)
    ensures IsWeekday(NthWeekday(a))
  {
    assert NthWeekday(a) == 7 * (a / 5) + a % 5;
  }

  lemma SlotsOfBarsRise(i: nat, j: nat)
    requires i < j
    ensures SlotAt(i) < SlotAt(j)
  {
    hide NthWeekday;
    WeekdaysRise(i / 14, j / 14);
    DaysInOrder(i, j);
  }

  lemma DaysInOrder(i: nat, j: nat)
    requires i < j
    ensures i / 14 < j / 14 || (i / 14 == j / 14 && i % 14 < j % 14)
  {
    assert i == 14 * (i / 14) + i % 14 && j == 14 * (j / 14) + j % 14;
  }

  lemma RowsAreSorted(n: nat)
    ensures Sorted(RowsTo(n))
  {
    hide SlotAt;
    forall i, j | 0 <= i < j < n
      ensures RowsTo(n)[i].ts < RowsTo(n)[j].ts
    {
      SlotsOfBarsRise(i, j);
    }
  }

  lemma BarsAreRegular(i: nat)
    ensures var ts := RowAt(i).ts;
            && LocalDay(ts) == NthWeekday(i / 14)
            && OpeningOf(LocalDay(ts)) == ts - i % 14 * HALF_HOUR
            && IsRegular(ts)
  {
    hide NthWeekday, IsWeekday;
    WeekdaysRise(i / 14, i / 14);
    SlotsOfADay(NthWeekday(i / 14), i % 14);
  }

  lemma SlotsOfADay(day: int, k: int)
    requires 0 <= k < 14
    ensures LocalDay((48 * day + 29 + k) * HALF_HOUR) == day
    ensures OpeningOf(day) == (48 * day + 29 + k) * HALF_HOUR - k * HALF_HOUR
    ensures CloseOf(day) == (48 * day + 29 + k) * HALF_HOUR + (13 - k) * HALF_HOUR
  {
    assert (48 * day + 29 + k) * HALF_HOUR - 5 * HOUR == day * DAY + (19 + k) * HALF_HOUR;
  }

  // ---------- The candles ----------

  ghost predicate IsFlat(c: Candle) {
    c.high == 10.04 && c.low == 10.02 && c.close == 10.03 && c.volume == 1000.0
  }

  /** What the candles look like at the last bar. */
  ghost predicate IsJump(cs: seq<Candle>) {
    && |cs| == 120
    && (forall i :: 0 <= i < 118 ==> IsFlat(cs[i]))
    && cs[118].high == 10.0 && cs[118].low == 9.97 && cs[118].close == 10.0 && cs[118].volume == 1000.0
    && cs[119].high == 17.0 && cs[119].low == 9.97 && cs[119].close == 10.0 && cs[119].volume == 2000.0
  }

  /** The two widths of candles, counted from the midnight before the first bar. */
  function BinsTo(width: Width): Bins {
    Bins(0, width)
  }

  lemma FirstMidnight(n: nat, width: Width)
    requires n > 0
    ensures BinsOf(RowsTo(n), width) == BinsTo(width)
  {
    assert RowAt(0).ts == 29 * HALF_HOUR;
  }

  lemma BucketsOfBars(i: nat, width: Width)
    requires width == 15 * MINUTE || width == HALF_HOUR
    ensures BucketOf(BinsTo(width), RowAt(i).ts) < BucketOf(BinsTo(width), RowAt(i + 1).ts)
  {
    SlotsOfBarsRise(i, i + 1);
    BucketOfSlot(SlotAt(i), width);
    BucketOfSlot(SlotAt(i + 1), width);
  }

  lemma BucketOfSlot(slot: int, width: Width)
    requires width == 15 * MINUTE || width == HALF_HOUR
    ensures slot * HALF_HOUR / width == if width == HALF_HOUR then slot else 2 * slot
  {
  }

  /** Bars half an hour apart are candles of their own. */
  lemma {:induction false} CandlesAreBars(n: nat, width: Width)
    requires width == 15 * MINUTE || width == HALF_HOUR
    ensures var cs := Resample(RowsTo(n), BinsTo(width));
            |cs| == n && forall i :: 0 <= i < n ==> cs[i] == CandleOf(RowAt(i), BinsTo(width))
  {
    hide RowAt, Joined, CandleOf, BinsTo, BucketOf;
    if n > 0 {
      var bins := BinsTo(width);
      var cs, row := Resample(RowsTo(n - 1), bins), RowAt(n - 1);
      CandlesAreBars(n - 1, width);
      assert RowsTo(n)[..n - 1] == RowsTo(n - 1);
      if n > 1 {
        BucketsOfBars(n - 2, width);
        assert cs[n - 2] == CandleOf(RowAt(n - 2), bins);
        BucketOfCandle(RowAt(n - 2), bins);
      }
      JoinedApart(cs, row, bins);
    }
  }

  lemma BucketOfCandle(row: Row, bins: Bins)
    ensures CandleOf(row, bins).bucket == BucketOf(bins, row.ts)
  {
  }

  lemma JoinedApart(cs: seq<Candle>, row: Row, bins: Bins)
    requires cs != [] ==> cs[|cs| - 1].bucket < BucketOf(bins, row.ts)
    ensures Joined(cs, row, bins) == cs + [CandleOf(row, bins)]
  {
  }

  lemma CandlesJump(width: Width)
    requires width == 15 * MINUTE || width == HALF_HOUR
    ensures var cs := Resample(RowsTo(120), BinsOf(RowsTo(120), width)); IsJump(cs) && |cs| == 120
  {
    hide Resample;
    FirstMidnight(120, width);
    CandlesAreBars(120, width);
  }

  // ---------- Averages at the last bar ----------

  lemma EmaOneMore(xs: seq<real>, x: real, span: Span)
    requires xs != []
    ensures Ema(xs + [x], span) == Blend(Alpha(span), x, Ema(xs, span))
  {
    assert (xs + [x])[..|xs|] == xs;
  }

  lemma ClosesOneMore(cs: seq<Candle>, c: Candle)
    ensures Closes(cs + [c]) == Closes(cs) + [c.close]
  {
  }

  ghost predicate AreFlat(cs: seq<Candle>) {
    forall i :: 0 <= i < |cs| ==> IsFlat(cs[i])
  }

  lemma FlatEma(cs: seq<Candle>, span: Span)
    requires AreFlat(cs) && cs != []
    ensures Ema(Closes(cs), span) == 10.03
  {
    hide Ema;
    EmaIsBetween(Closes(cs), span, 10.03, 10.03);
  }

  /** The average after one close of ten, and after two. */
  function FallenOnce(span: Span): real {
    Blend(Alpha(span), 10.0, 10.03)
  }

  function FallenTwice(span: Span): real {
    Blend(Alpha(span), 10.0, FallenOnce(span))
  }

  lemma Parts(cs: seq<Candle>)
    requires IsJump(cs)
    ensures AreFlat(cs[..118]) && cs[..119] == cs[..118] + [cs[118]] && cs == cs[..119] + [cs[119]]
  {
  }

  lemma JumpEma(cs: seq<Candle>, span: Span)
    requires IsJump(cs)
    ensures Ema(Closes(cs[..119]), span) == FallenOnce(span)
    ensures Ema(Closes(cs), span) == FallenTwice(span)
  {
    hide Ema, Closes, Blend, AreFlat;
    Parts(cs);
    FlatEma(cs[..118], span);
    ClosesOneMore(cs[..118], cs[118]);
    EmaOneMore(Closes(cs[..118]), 10.0, span);
    ClosesOneMore(cs[..119], cs[119]);
    EmaOneMore(Closes(cs[..119]), 10.0, span);
  }

  lemma FallenValues()
    ensures FallenTwice(5) < FallenTwice(10) < FallenTwice(20)
    ensures 0.008 <= FallenTwice(20) - FallenTwice(5)
    ensures 10.0 <= FallenTwice(5) <= 10.015
  {
  }

  lemma JumpFalls(cs: seq<Candle>)
    requires IsJump(cs)
    ensures Falls(DEFAULT_INDICATORS, cs) && !Rises(DEFAULT_INDICATORS, cs)
    ensures TrendSpread(DEFAULT_INDICATORS, cs) >= 0.0008
    ensures 10.0 <= Ema(Closes(cs), 5) <= 10.015
  {
    hide Ema, Closes, FallenTwice, FallenOnce;
    JumpEma(cs, 5);
    JumpEma(cs, 10);
    JumpEma(cs, 20);
    FallenValues();
  }

  // ---------- Momentum at the last bar ----------

  lemma LinesOneMore(cfg: IndicatorConfig, xs: seq<real>, x: real)
    ensures MacdLines(cfg, xs + [x]) == MacdLines(cfg, xs) + [MacdLine(cfg, xs + [x])]
  {
    assert (xs + [x])[..|xs|] == xs;
  }

  lemma {:induction false} FlatLines(cs: seq<Candle>)
    requires AreFlat(cs)
    ensures forall i :: 0 <= i < |cs| ==> MacdLines(DEFAULT_INDICATORS, Closes(cs))[i] == 0.0
  {
    hide Ema, AreFlat;
    if cs != [] {
      var n := |cs| - 1;
      FlatPrefix(cs, n);
      FlatLines(cs[..n]);
      FlatEma(cs, 12);
      FlatEma(cs, 26);
      assert Closes(cs)[..n] == Closes(cs[..n]);
    }
  }

  lemma FlatPrefix(cs: seq<Candle>, n: nat)
    requires AreFlat(cs) && n <= |cs|
    ensures AreFlat(cs[..n])
  {
  }

  lemma FlatSignal(cs: seq<Candle>)
    requires AreFlat(cs) && cs != []
    ensures Ema(MacdLines(DEFAULT_INDICATORS, Closes(cs)), 9) == 0.0
  {
    hide Ema, MacdLines, Closes, AreFlat;
    FlatLines(cs);
    EmaIsBetween(MacdLines(DEFAULT_INDICATORS, Closes(cs)), 9, 0.0, 0.0);
  }

  lemma JumpHist(cs: seq<Candle>)
    requires IsJump(cs)
    ensures MacdHist(DEFAULT_INDICATORS, Closes(cs)) < 0.0
  {
    hide Ema, Closes, AreFlat, MacdLines, FallenOnce, FallenTwice, Blend;
    var cfg := DEFAULT_INDICATORS;
    Parts(cs);
    FlatSignal(cs[..118]);
    JumpEma(cs, 12);
    JumpEma(cs, 26);
    var m1, m2 := FallenOnce(12) - FallenOnce(26), FallenTwice(12) - FallenTwice(26);
    ClosesOneMore(cs[..118], cs[118]);
    LinesOneMore(cfg, Closes(cs[..118]), 10.0);
    EmaOneMore(MacdLines(cfg, Closes(cs[..118])), m1, 9);
    ClosesOneMore(cs[..119], cs[119]);
    LinesOneMore(cfg, Closes(cs[..119]), 10.0);
    EmaOneMore(MacdLines(cfg, Closes(cs[..119])), m2, 9);
    HistValue();
  }

  lemma HistValue()
    ensures var m1, m2 := FallenOnce(12) - FallenOnce(26), FallenTwice(12) - FallenTwice(26);
            m2 - Blend(Alpha(9), m2, Blend(Alpha(9), m1, 0.0)) < 0.0
  {
  }

  lemma {:induction false} RsvAt(cfg: IndicatorConfig, cs: seq<Candle>, i: nat)
    requires i < |cs|
    ensures Rsvs(cfg, cs)[i] == Rsv(cs[..i + 1], cfg.period)
  {
    hide Rsv;
    var n := |cs| - 1;
    if i < n {
      RsvAt(cfg, cs[..n], i);
      assert cs[..n][..i + 1] == cs[..i + 1];
    } else {
      assert cs[..i + 1] == cs;
    }
  }

  lemma {:induction false} StochKAt(cfg: IndicatorConfig, cs: seq<Candle>, i: nat)
    requires i < |cs|
    ensures StochKs(cfg, cs)[i] == StochK(cfg, cs[..i + 1])
  {
    hide StochK;
    var n := |cs| - 1;
    if i < n {
      StochKAt(cfg, cs[..n], i);
      assert cs[..n][..i + 1] == cs[..i + 1];
    } else {
      assert cs[..i + 1] == cs;
    }
  }

  lemma SumOneMore(xs: seq<Option<real>>, n: nat)
    requires xs != [] && n > 0 && xs[|xs| - 1].Some?
    ensures SumOfLast(xs, n) ==
            var before := SumOfLast(xs[..|xs| - 1], n - 1);
            if before.None? then None else Some(before.value + xs[|xs| - 1].value)
  {
  }

  lemma MeanOfThree(xs: seq<Option<real>>, a: real, b: real, c: real)
    requires var n := |xs|; n >= 3 && xs[n - 3] == Some(a) && xs[n - 2] == Some(b) && xs[n - 1] == Some(c)
    ensures RollingMean(xs, 3) == Some((a + b + c) / 3.0)
  {
    hide SumOfLast;
    var n := |xs|;
    var ys, zs := xs[..n - 1], xs[..n - 2];
    assert ys[..n - 2] == zs && zs[..n - 3] == xs[..n - 3];
    SumOneMore(xs, 3);
    SumOneMore(ys, 2);
    SumOneMore(zs, 1);
    SumOfNone(xs[..n - 3]);
  }

  lemma SumOfNone(xs: seq<Option<real>>)
    ensures SumOfLast(xs, 0) == Some(0.0)
  {
  }

  lemma RsvOfRange(cs: seq<Candle>, lo: real, hi: real)
    requires |cs| >= 14 && lo < hi
    requires forall i :: |cs| - 14 <= i < |cs| ==> lo <= cs[i].low && cs[i].high <= hi
    requires exists i :: |cs| - 14 <= i < |cs| && cs[i].low == lo
    requires exists i :: |cs| - 14 <= i < |cs| && cs[i].high == hi
    ensures Rsv(cs, 14) == Some((cs[|cs| - 1].close - lo) / (hi - lo) * 100.0)
  {
    hide LowOfLast, HighOfLast;
    LowIsLowest(cs, 14);
    HighIsHighest(cs, 14);
  }

  lemma FlatRsv(cs: seq<Candle>)
    requires AreFlat(cs) && |cs| >= 14
    ensures Rsv(cs, 14) == Some(50.0)
  {
    hide Rsv;
    assert cs[|cs| - 1].low == 10.02 && cs[|cs| - 1].high == 10.04;
    RsvOfRange(cs, 10.02, 10.04);
  }

  lemma JumpRsvs(cs: seq<Candle>)
    requires IsJump(cs)
    ensures var rs := Rsvs(DEFAULT_INDICATORS, cs);
            && (forall i :: 13 <= i < 118 ==> rs[i] == Some(50.0))
            && rs[118] == Some(300.0 / 7.0)
            && rs[119] == Some(300.0 / 703.0)
  {
    hide Rsv, Rsvs, AreFlat;
    Parts(cs);
    forall i | 13 <= i < 118
      ensures Rsvs(DEFAULT_INDICATORS, cs)[i] == Some(50.0)
    {
      RsvAt(DEFAULT_INDICATORS, cs, i);
      FlatPrefix(cs[..118], i + 1);
      assert cs[..118][..i + 1] == cs[..i + 1];
      FlatRsv(cs[..i + 1]);
    }
    RsvAt(DEFAULT_INDICATORS, cs, 118);
    assert cs[..119][118].low == 9.97 && cs[..119][117].high == 10.04;
    RsvOfRange(cs[..119], 9.97, 10.04);
    RsvAt(DEFAULT_INDICATORS, cs, 119);
    assert cs[..120] == cs;
    assert cs[119].low == 9.97 && cs[119].high == 17.0;
    RsvOfRange(cs, 9.97, 17.0);
  }

  lemma PrefixRsvs(cs: seq<Candle>, m: nat)
    requires m <= |cs|
    ensures Rsvs(DEFAULT_INDICATORS, cs[..m]) == Rsvs(DEFAULT_INDICATORS, cs)[..m]
  {
    hide Rsv, Rsvs;
    forall i | 0 <= i < m
      ensures Rsvs(DEFAULT_INDICATORS, cs[..m])[i] == Rsvs(DEFAULT_INDICATORS, cs)[i]
    {
      RsvAt(DEFAULT_INDICATORS, cs[..m], i);
      RsvAt(DEFAULT_INDICATORS, cs, i);
      assert cs[..m][..i + 1] == cs[..i + 1];
    }
  }

  lemma KOfPrefix(cs: seq<Candle>, m: nat, a: real, b: real, c: real)
    requires 3 <= m <= |cs|
    requires var rs := Rsvs(DEFAULT_INDICATORS, cs);
             rs[m - 3] == Some(a) && rs[m - 2] == Some(b) && rs[m - 1] == Some(c)
    ensures StochKs(DEFAULT_INDICATORS, cs)[m - 1] == Some((a + b + c) / 3.0)
  {
    hide Rsvs, StochKs, RollingMean;
    PrefixRsvs(cs, m);
    MeanOfThree(Rsvs(DEFAULT_INDICATORS, cs[..m]), a, b, c);
    StochKAt(DEFAULT_INDICATORS, cs, m - 1);
  }

  lemma JumpLosesMomentum(cs: seq<Candle>)
    requires IsJump(cs)
    ensures LosesMomentum(DEFAULT_INDICATORS, cs)
  {
    hide Rsvs, StochKs, RollingMean, MacdHist, Closes;
    JumpHist(cs);
    JumpRsvs(cs);
    var x, y := 300.0 / 7.0, 300.0 / 703.0;
    KOfPrefix(cs, 118, 50.0, 50.0, 50.0);
    KOfPrefix(cs, 119, 50.0, 50.0, x);
    KOfPrefix(cs, 120, 50.0, x, y);
    assert cs[..120] == cs;
    StochKAt(DEFAULT_INDICATORS, cs, 119);
    MeanOfThree(StochKs(DEFAULT_INDICATORS, cs), 50.0, (50.0 + 50.0 + x) / 3.0, (50.0 + x + y) / 3.0);
  }

  // ---------- The reading and the entry ----------

  lemma {:induction false} SumOfEqual(xs: seq<Option<real>>, n: nat)
    requires n <= |xs| && forall i :: 0 <= i < |xs| ==> xs[i] == Some(1000.0)
    ensures SumOfLast(xs, n) == Some(1000.0 * n as real)
  {
    if n > 0 {
      SumOfEqual(xs[..|xs| - 1], n - 1);
    }
  }

  lemma JumpVolume(cs: seq<Candle>)
    requires IsJump(cs)
    ensures VolumeRatio(cs) == Some(2000.0 / 1050.0)
  {
    hide SumOfLast;
    var vs := Volumes(cs);
    assert forall i :: 0 <= i < 119 ==> vs[..119][i] == Some(1000.0);
    SumOfEqual(vs[..119], 19);
    SumOneMore(vs, 20);
  }

  lemma JumpSwing(cs: seq<Candle>)
    requires IsJump(cs)
    ensures HighOfLast(cs, 6) == 17.0
  {
    hide HighOfLast;
    HighIsHighest(cs, 6);
    assert cs[119].high <= HighOfLast(cs, 6);
  }

  lemma JumpReading()
    ensures var r := Study(DEFAULT_INDICATORS, RowsTo(120));
            && r.regime == TrendDown && r.macdHist < 0.0 && 10.0 <= r.emaFast <= 10.015
            && r.volumeRatio == Some(2000.0 / 1050.0) && r.swingHigh == 17.0
  {
    hide Resample, Ema, MacdHist, VolumeRatio, HighOfLast, LowOfLast, IsJump, Falls, Rises, LosesMomentum,
         GainsMomentum, TrendSpread, RangeCenter, Closes;
    var frame := RowsTo(120);
    var fast, slow := Resample(frame, BinsOf(frame, 15 * MINUTE)), Resample(frame, BinsOf(frame, HALF_HOUR));
    CandlesJump(15 * MINUTE);
    CandlesJump(HALF_HOUR);
    JumpFalls(fast);
    JumpFalls(slow);
    JumpLosesMomentum(fast);
    JumpHist(fast);
    JumpVolume(fast);
    JumpSwing(fast);
  }

  lemma LateBarsAreOutside(i: nat, ts: int)
    requires i % 14 > 0
    ensures !InOpeningRange(SETUP, ts, RowAt(i))
  {
    hide IsRegular, NthWeekday, RowAt;
    BarsAreRegular(i);
  }

  /** Nothing in the opening range is as low as the last close. */
  lemma {:induction false} OpeningLowIsAbove(n: nat, ts: int)
    requires n <= 120
    ensures var low := OpeningLow(SETUP, ts, RowsTo(n)); low.Some? ==> low.value >= 10.02
  {
    hide InOpeningRange;
    if n > 0 {
      assert RowsTo(n)[..n - 1] == RowsTo(n - 1);
      OpeningLowIsAbove(n - 1, ts);
      if n > 118 {
        LateBarsAreOutside(n - 1, ts);
      }
    }
  }

  lemma LastBarIsReady()
    ensures OpeningRangeReady(SETUP, RowAt(119).ts)
  {
    hide IsRegular, NthWeekday, RowAt;
    BarsAreRegular(119);
  }

  /** A new position goes short at the last bar. */
  lemma JumpEnters(pos: Position)
    requires pos.side == None && pos.lastSignal == None && pos.shortEntries == 0
    ensures EntersShort(SETUP, pos, RowsTo(120), Study(DEFAULT_INDICATORS, RowsTo(120)))
  {
    hide Study, OpeningLow, OpeningRangeReady;
    JumpReading();
    OpeningLowIsAbove(120, RowAt(119).ts);
    LastBarIsReady();
  }

  lemma JumpDecision(pos: Position)
    requires pos.side == None && pos.lastSignal == None && pos.shortEntries == 0
    ensures var x := Decide(SETUP, pos, "SPY", RowsTo(120)).signal;
            x.Some? && x.value.kind == TrendShort && x.value.target.Some? && x.value.target.value < -0.5
  {
    hide Study, EntersShort, EntersLong, MarksRange, LeavesLong, LeavesShort, Round4;
    JumpReading();
    JumpEnters(pos);
    JumpTarget(ShortTarget(DEFAULT_STRATEGY, RowAt(119), Study(DEFAULT_INDICATORS, RowsTo(120))));
  }

  lemma JumpTarget(target: real)
    requires target == 10.0 - (17.0 * 1.0008 - 10.0) * 1.5
    ensures Round4(target) < -0.5
  {
  }

  // ---------- The run ----------

  lemma {:induction false} SortedHistoryIsKept(history: seq<Row>)
    requires Sorted(history)
    ensures Everything(history) == history
  {
    if history != [] {
      var n := |history| - 1;
      SortedHistoryIsKept(history[..n]);
      WithoutNothing(history[..n], history[n].ts);
    }
  }

  lemma AllRowsAreKept(n: nat)
    requires n <= 120
    ensures Kept(RowsTo(n), 600) == RowsTo(n)
  {
    hide Everything;
    RowsAreSorted(n);
    SortedHistoryIsKept(RowsTo(n));
  }

  /** Before the last bar there are too few bars to judge. */
  lemma {:induction false} QuietBefore(n: nat)
    requires n < 120
    ensures After(SETUP, EventsTo(n), "SPY") == Cell(RowsTo(n), NEW_POSITION)
    ensures Stream(SETUP, EventsTo(n)) == []
  {
    hide Kept, Decide, RowAt, IsRegular;
    if n > 0 {
      assert EventsTo(n)[..n - 1] == EventsTo(n - 1);
      assert RowsTo(n - 1) + [RowAt(n - 1)] == RowsTo(n);
      QuietBefore(n - 1);
      AllRowsAreKept(n);
      BarsAreRegular(n - 1);
    }
  }

  /** With every setting at its default, on half-hour bars of regular hours that arrive in order, the engine sends one
      signal: a short entry with a target below zero. */
  lemma ShortTargetsCanBeNegative()
    ensures var stream := Stream(SETUP, EventsTo(120));
            |stream| == 1 && stream[0].symbol == "SPY" && stream[0].kind == TrendShort
            && stream[0].target.Some? && stream[0].target.value < -0.5
  {
    hide Kept, Decide, RowAt, IsRegular, After, LocalDay;
    assert EventsTo(120)[..119] == EventsTo(119);
    assert RowsTo(119) + [RowAt(119)] == RowsTo(120);
    QuietBefore(119);
    AllRowsAreKept(120);
    BarsAreRegular(119);
    JumpDecision(Rolled(NEW_POSITION, MARKET.day(RowAt(119).ts)));
    DecisionNamesItsSymbol(SETUP, Rolled(NEW_POSITION, MARKET.day(RowAt(119).ts)), "SPY", RowsTo(120));
  }

  lemma DaysOfSetup()
    ensures SETUP.market == MARKET && SETUP.market.day == LocalDay
  {
  }

  lemma SpyIsReadable()
    ensures IsReadable("SPY")
  {
    SymbolsAreReadable("SPY");
  }

  /** The option backtest of that run ends in an error. */
  lemma TheBacktestFails(
      cfg: PlanConfig, iso: int -> IsoDate, ticks: seq<Tick>,
      sigma: (string, int) -> real, price: (real, int, int, real, seq<ParsedLeg>) -> real)
    requires !cfg.invert
    requires forall symbol, ts :: CameIn(EventsTo(120), symbol, ts) ==> HasTick(ticks, symbol, ts)
    ensures Simulated(BacktestDesk(cfg, Dates(LocalDay, iso, CloseOf), sigma, price), ticks,
                      Stream(SETUP, EventsTo(120))) == None
  {
    hide *;
    DaysOfSetup();
    ClosesFollowDays();
    ShortTargetsCanBeNegative();
    SpyIsReadable();
    NegativeTargetsEndTheBacktest(SETUP, EventsTo(120), cfg, iso, CloseOf, ticks, sigma, price);
  }
}
