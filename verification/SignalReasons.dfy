/** Why the engine sends what it sends: exactly when, on a judged bar of a run, a side is left, entered or marked. */
module SignalReasons {
  import opened BarStore
  import opened Options
  import opened Rounding
  import opened SignalEngine
  import opened SignalPipeline

  // ---------- The reasons, written out ----------

  /** Held for the configured minutes, with a gain that is a share of the entry price of the configured progress at
      most. */
  predicate IsStale(cfg: StrategyConfig, entry: Price, since: int, gain: real, ts: int) {
    ts - since >= cfg.timeStopMinutes * 60000000000 && gain / entry <= cfg.timeStopProgress
  }

  predicate LosesLong(cfg: StrategyConfig, stop: real, entry: Price, since: int, last: Row, r: Reading) {
    || last.close <= stop
    || last.close < r.emaFast
    || r.regime == TrendDown
    || IsStale(cfg, entry, since, last.close - entry, last.ts)
  }

  predicate LosesShort(cfg: StrategyConfig, stop: real, entry: Price, since: int, last: Row, r: Reading) {
    || last.close >= stop
    || last.close > r.emaFast
    || r.regime == TrendUp
    || IsStale(cfg, entry, since, entry - last.close, last.ts)
  }

  /** The cooldown is over. */
  predicate IsCool(cfg: StrategyConfig, pos: Position, ts: int) {
    pos.lastSignal.Some? ==> ts - pos.lastSignal.value >= cfg.cooldownMinutes * 60000000000
  }

  /** The row belongs to the opening range of the day of the instant. */
  predicate IsOpening(u: Setup, ts: int, row: Row) {
    && u.market.day(row.ts) == u.market.day(ts)
    && row.ts < u.market.opening(u.market.day(ts)) + u.cfg.openingMinutes * 60000000000
  }

  /** The opening range is over, by whole minutes. */
  predicate IsPastOpening(u: Setup, ts: int) {
    ts - u.market.opening(u.market.day(ts)) >= u.cfg.openingMinutes * 60000000000
  }

  predicate IsNear(cfg: StrategyConfig, last: Row, r: Reading) {
    && (last.close - r.emaFast) / last.close <= cfg.pullbackTolerance
    && (r.emaFast - last.close) / last.close <= cfg.pullbackTolerance
  }

  /** Entries or range signals of the day so far. */
  function Today(u: Setup, pos: Position, ts: int, count: int): int {
    if pos.session == Some(u.market.day(ts)) then count else 0
  }

  ghost predicate GoesLong(u: Setup, pos: Position, frame: Frame, r: Reading)
    requires frame != []
  {
    var last := frame[|frame| - 1];
    && pos.side == None && IsCool(u.cfg, pos, last.ts) && r.regime == TrendUp
    && (u.cfg.requireBreakout ==>
          && IsPastOpening(u, last.ts)
          && forall i :: 0 <= i < |frame| && IsOpening(u, last.ts, frame[i]) ==> frame[i].high < last.close)
    && Today(u, pos, last.ts, pos.longEntries) < u.cfg.maxEntries
    && IsNear(u.cfg, last, r)
    && r.macdHist > 0.0
    && r.volumeRatio.Some? && r.volumeRatio.value >= u.cfg.minVolumeRatio
    && StopBelow(u.cfg, r) < last.close
  }

  ghost predicate GoesShort(u: Setup, pos: Position, frame: Frame, r: Reading)
    requires frame != []
  {
    var last := frame[|frame| - 1];
    && pos.side == None && IsCool(u.cfg, pos, last.ts) && r.regime == TrendDown
    && (u.cfg.requireBreakout ==>
          && IsPastOpening(u, last.ts)
          && forall i :: 0 <= i < |frame| && IsOpening(u, last.ts, frame[i]) ==> frame[i].low > last.close)
    && Today(u, pos, last.ts, pos.shortEntries) < u.cfg.maxEntries
    && IsNear(u.cfg, last, r)
    && r.macdHist < 0.0
    && r.volumeRatio.Some? && r.volumeRatio.value >= u.cfg.minVolumeRatio
    && StopAbove(u.cfg, r) > last.close
  }

  predicate IsZone(u: Setup, pos: Position, last: Row, r: Reading) {
    && IsCool(u.cfg, pos, last.ts) && r.regime == Range && IsPastOpening(u, last.ts)
    && Today(u, pos, last.ts, pos.rangeSignals) < u.cfg.maxRangeSignals
    && (last.close - r.rangeCenter) / last.close <= u.cfg.rangeBand
    && (r.rangeCenter - last.close) / last.close <= u.cfg.rangeBand
    && (r.high20 - r.low20) / last.close <= 0.01
  }

  /** The stop of a long side, a share below the recent low, and that of a short side, a share above the recent high. */
  function StopBelow(cfg: StrategyConfig, r: Reading): real {
    r.swingLow * (1.0 - cfg.stopBelowLow)
  }

  function StopAbove(cfg: StrategyConfig, r: Reading): real {
    r.swingHigh * (1.0 + cfg.stopAboveHigh)
  }

  /** How far the target is from the close for a risk. */
  function Aim(cfg: StrategyConfig, risk: real, close: Price): real {
    if risk * cfg.minRr >= close * 0.003 then risk * cfg.minRr else close * 0.003
  }

  // ---------- Parts of a decision ----------

  lemma {:induction false} AboveOpeningHigh(u: Setup, ts: int, frame: Frame, close: real)
    ensures var high := OpeningHigh(u, ts, frame);
            (high.Some? ==> high.value < close) <==>
            forall i :: 0 <= i < |frame| && IsOpening(u, ts, frame[i]) ==> frame[i].high < close
  {
    if frame != [] {
      var n := |frame| - 1;
      AboveOpeningHigh(u, ts, frame[..n], close);
      assert forall i :: 0 <= i < n ==> frame[..n][i] == frame[i];
      assert IsOpening(u, ts, frame[n]) <==> InOpeningRange(u, ts, frame[n]);
    }
  }

  lemma {:induction false} BelowOpeningLow(u: Setup, ts: int, frame: Frame, close: real)
    ensures var low := OpeningLow(u, ts, frame);
            (low.Some? ==> low.value > close) <==>
            forall i :: 0 <= i < |frame| && IsOpening(u, ts, frame[i]) ==> frame[i].low > close
  {
    if frame != [] {
      var n := |frame| - 1;
      BelowOpeningLow(u, ts, frame[..n], close);
      assert forall i :: 0 <= i < n ==> frame[..n][i] == frame[i];
      assert IsOpening(u, ts, frame[n]) <==> InOpeningRange(u, ts, frame[n]);
    }
  }

  lemma WholeMinutes(u: Setup, ts: int)
    ensures OpeningRangeReady(u, ts) <==> IsPastOpening(u, ts)
  {
  }

  lemma NearEitherSide(x: real, y: Price, d: real)
    ensures Abs(y - x) / y <= d <==> (y - x) / y <= d && (x - y) / y <= d
  {
    OppositeQuotients(y - x, y);
  }

  lemma OppositeQuotients(a: real, b: Price)
    ensures (-a) / b == -(a / b)
    ensures a >= 0.0 <==> a / b >= 0.0
  {
  }

  lemma LongEntry(u: Setup, pos: Position, frame: Frame, r: Reading)
    requires frame != []
    ensures var last := frame[|frame| - 1];
            GoesLong(u, pos, frame, r) <==>
            && pos.side == None && !CoolingDown(u.cfg, pos, last.ts) && r.regime == TrendUp
            && EntersLong(u, Rolled(pos, u.market.day(last.ts)), frame, r)
  {
    hide OpeningHigh, OpeningRangeReady, IsPastOpening;
    var last := frame[|frame| - 1];
    AboveOpeningHigh(u, last.ts, frame, last.close);
    WholeMinutes(u, last.ts);
    NearEitherSide(r.emaFast, last.close, u.cfg.pullbackTolerance);
  }

  lemma ShortEntry(u: Setup, pos: Position, frame: Frame, r: Reading)
    requires frame != []
    ensures var last := frame[|frame| - 1];
            GoesShort(u, pos, frame, r) <==>
            && pos.side == None && !CoolingDown(u.cfg, pos, last.ts) && r.regime == TrendDown
            && EntersShort(u, Rolled(pos, u.market.day(last.ts)), frame, r)
  {
    hide OpeningLow, OpeningRangeReady, IsPastOpening;
    var last := frame[|frame| - 1];
    BelowOpeningLow(u, last.ts, frame, last.close);
    WholeMinutes(u, last.ts);
    NearEitherSide(r.emaFast, last.close, u.cfg.pullbackTolerance);
  }

  lemma Zone(u: Setup, pos: Position, last: Row, r: Reading)
    ensures IsZone(u, pos, last, r) <==>
            && !CoolingDown(u.cfg, pos, last.ts) && r.regime == Range
            && MarksRange(u, Rolled(pos, u.market.day(last.ts)), last, r)
  {
    hide OpeningRangeReady, IsPastOpening;
    WholeMinutes(u, last.ts);
    NearEitherSide(r.rangeCenter, last.close, u.cfg.rangeBand);
  }

  // ---------- One decision ----------

  /** What a signal of the last row says. */
  predicate Says(x: Signal, symbol: string, last: Row, r: Reading, kind: SignalKind) {
    x.symbol == symbol && x.kind == kind && x.regime == r.regime && x.price == last.close && x.ts == last.ts
  }

  predicate IsSent(v: Verdict, kind: SignalKind) {
    v.signal.Some? && v.signal.value.kind == kind
  }

  /** A position with a side remembers its entry. */
  predicate Remembers(pos: Position) {
    pos.side.Some? ==> pos.entryPrice.Some? && pos.entryTime.Some? && pos.stop.Some?
  }

  /** Whether the side of a position is lost on the last row. */
  predicate Loses(cfg: StrategyConfig, pos: Position, last: Row, r: Reading)
    requires Remembers(pos)
  {
    match pos.side
    case None => false
    case Some(Long) => LosesLong(cfg, pos.stop.value, pos.entryPrice.value, pos.entryTime.value, last, r)
    case Some(Short) => LosesShort(cfg, pos.stop.value, pos.entryPrice.value, pos.entryTime.value, last, r)
  }

  predicate IsStopped(pos: Position, last: Row)
    requires Remembers(pos) && pos.side.Some?
  {
    if pos.side == Some(Long) then last.close <= pos.stop.value else last.close >= pos.stop.value
  }

  /** A side is left exactly when it is lost, with the stop shown when that was hit. */
  ghost predicate LeavesWithReason(
      cfg: StrategyConfig, pos: Position, symbol: string, last: Row, r: Reading, v: Verdict)
    requires Remembers(pos)
  {
    && (IsSent(v, ExitLong) <==> pos.side == Some(Long) && Loses(cfg, pos, last, r))
    && (IsSent(v, ExitShort) <==> pos.side == Some(Short) && Loses(cfg, pos, last, r))
    && (pos.side.Some? ==> v.pos.side == if Loses(cfg, pos, last, r) then None else pos.side)
    && (Loses(cfg, pos, last, r) ==>
          var x := v.signal.value;
          && Says(x, symbol, last, r, if pos.side == Some(Long) then ExitLong else ExitShort)
          && x.target == None && x.center == None
          && x.stop == if IsStopped(pos, last) then Some(Round4(pos.stop.value)) else None)
  }

  /** A side is entered exactly when there is reason to: at the close, with a stop beyond the recent extreme and a
      target as far away as the reward ratio and the least move ask for. */
  ghost predicate EntersWithReason(u: Setup, pos: Position, symbol: string, frame: Frame, r: Reading, v: Verdict)
    requires frame != []
  {
    var last := frame[|frame| - 1];
    && (IsSent(v, TrendLong) <==> GoesLong(u, pos, frame, r))
    && (IsSent(v, TrendShort) <==> GoesShort(u, pos, frame, r))
    && (IsSent(v, TrendLong) ==>
          var stop := StopBelow(u.cfg, r);
          var target := last.close + Aim(u.cfg, last.close - stop, last.close);
          IsEntered(v, Long, last, stop, target) && Says(v.signal.value, symbol, last, r, TrendLong))
    && (IsSent(v, TrendShort) ==>
          var stop := StopAbove(u.cfg, r);
          var target := last.close - Aim(u.cfg, stop - last.close, last.close);
          IsEntered(v, Short, last, stop, target) && Says(v.signal.value, symbol, last, r, TrendShort))
  }

  predicate IsEntered(v: Verdict, side: Side, last: Row, stop: real, target: real) {
    && v.pos.side == Some(side)
    && v.pos.entryPrice == Some(last.close) && v.pos.entryTime == Some(last.ts)
    && v.pos.stop == Some(stop) && v.pos.target == Some(target)
    && v.signal.Some? && v.signal.value.center == None
    && v.signal.value.stop == Some(Round4(stop)) && v.signal.value.target == Some(Round4(target))
  }

  /** A range zone is marked exactly when there is reason to, and no side is lost on the row. */
  ghost predicate MarksWithReason(u: Setup, pos: Position, symbol: string, last: Row, r: Reading, v: Verdict)
    requires Remembers(pos)
  {
    && (IsSent(v, RangeZone) <==> !Loses(u.cfg, pos, last, r) && IsZone(u, pos, last, r))
    && (IsSent(v, RangeZone) ==>
          var x := v.signal.value;
          && Says(x, symbol, last, r, RangeZone)
          && x.stop == None && x.target == None && x.center == Some(Round4(r.rangeCenter)))
  }

  lemma LeavingIsLosing(u: Setup, pos: Position, last: Row, r: Reading)
    requires Remembers(pos)
    ensures pos.side == Some(Long) ==>
              (LeavesLong(u.cfg, Rolled(pos, u.market.day(last.ts)), last, r) <==> Loses(u.cfg, pos, last, r))
    ensures pos.side == Some(Short) ==>
              (LeavesShort(u.cfg, Rolled(pos, u.market.day(last.ts)), last, r) <==> Loses(u.cfg, pos, last, r))
  {
  }

  lemma LeavesAreReasoned(u: Setup, pos: Position, symbol: string, frame: Frame)
    requires frame != [] && Remembers(pos)
    ensures var r, last := u.market.study(frame), frame[|frame| - 1];
            LeavesWithReason(u.cfg, pos, symbol, last, r,
                             Decide(u, Rolled(pos, u.market.day(last.ts)), symbol, frame))
  {
    hide LeavesLong, LeavesShort, EntersLong, EntersShort, MarksRange, Loses, Round4, LongStop, ShortStop,
         LongTarget, ShortTarget;
    var r, last := u.market.study(frame), frame[|frame| - 1];
    TwoSides(pos.side);
    LeavingIsLosing(u, pos, last, r);
    NothingToLose(u.cfg, pos, last, r);
  }

  lemma TargetsAreAims(cfg: StrategyConfig, last: Row, r: Reading)
    ensures LongStop(cfg, r) == StopBelow(cfg, r) && ShortStop(cfg, r) == StopAbove(cfg, r)
    ensures LongTarget(cfg, last, r) == last.close + Aim(cfg, last.close - StopBelow(cfg, r), last.close)
    ensures ShortTarget(cfg, last, r) == last.close - Aim(cfg, StopAbove(cfg, r) - last.close, last.close)
  {
  }

  lemma EntriesAreReasoned(u: Setup, pos: Position, symbol: string, frame: Frame)
    requires frame != [] && Remembers(pos)
    ensures var r, last := u.market.study(frame), frame[|frame| - 1];
            EntersWithReason(u, pos, symbol, frame, r, Decide(u, Rolled(pos, u.market.day(last.ts)), symbol, frame))
  {
    hide LeavesLong, LeavesShort, EntersLong, EntersShort, MarksRange, GoesLong, GoesShort, Round4, LongStop,
         ShortStop, LongTarget, ShortTarget, Aim, StopBelow, StopAbove;
    var r, last := u.market.study(frame), frame[|frame| - 1];
    TargetsAreAims(u.cfg, last, r);
    LongEntry(u, pos, frame, r);
    ShortEntry(u, pos, frame, r);
  }

  lemma MarksAreReasoned(u: Setup, pos: Position, symbol: string, frame: Frame)
    requires frame != [] && Remembers(pos)
    ensures var r, last := u.market.study(frame), frame[|frame| - 1];
            MarksWithReason(u, pos, symbol, last, r, Decide(u, Rolled(pos, u.market.day(last.ts)), symbol, frame))
  {
    hide LeavesLong, LeavesShort, EntersLong, EntersShort, MarksRange, Loses, IsZone, Round4, LongStop,
         ShortStop, LongTarget, ShortTarget;
    var r, last := u.market.study(frame), frame[|frame| - 1];
    TwoSides(pos.side);
    LeavingIsLosing(u, pos, last, r);
    NothingToLose(u.cfg, pos, last, r);
    Zone(u, pos, last, r);
  }

  lemma DecisionsRemember(u: Setup, pos: Position, symbol: string, frame: Frame)
    requires frame != [] && Remembers(pos)
    ensures Remembers(Decide(u, Rolled(pos, u.market.day(frame[|frame| - 1].ts)), symbol, frame).pos)
  {
    hide LeavesLong, LeavesShort, EntersLong, EntersShort, MarksRange, CoolingDown;
  }

  lemma TwoSides(side: Option<Side>)
    ensures side == None || side == Some(Long) || side == Some(Short)
  {
    match side
    case None =>
    case Some(Long) =>
    case Some(Short) =>
  }

  lemma NothingToLose(cfg: StrategyConfig, pos: Position, last: Row, r: Reading)
    requires Remembers(pos)
    ensures pos.side == None ==> !Loses(cfg, pos, last, r)
  {
  }

  // ---------- Runs ----------

  lemma {:induction false} RunsRemember(u: Setup, events: seq<Event>, symbol: string)
    ensures Remembers(After(u, events, symbol).pos)
  {
    hide Kept, Decide, Advance;
    if events != [] {
      var before, e := events[..|events| - 1], events[|events| - 1];
      RunsRemember(u, before, symbol);
      if e.symbol == symbol {
        AdvanceRemembers(u, After(u, before, symbol), e);
      }
    }
  }

  lemma AdvanceRemembers(u: Setup, c: Cell, e: Event)
    requires Remembers(c.pos)
    ensures Remembers(Advance(u, c, e).cell.pos)
  {
    hide Kept, Decide;
    var frame := Kept(c.history + [e.row], u.cfg.maxBarsKept);
    if frame != [] {
      DecisionsRemember(u, c.pos, e.symbol, frame);
    }
  }

  /** The frame that a call judges: the newest bars of the symbol, when there are enough of them. */
  ghost predicate IsJudged(u: Setup, before: seq<Event>, e: Event, frame: Frame) {
    && u.market.regular(e.row.ts) && e.emit
    && frame == Kept(After(u, before, e.symbol).history + [e.row], u.cfg.maxBarsKept)
    && |frame| >= 120
  }

  /** On every run: each judged bar leaves, enters and marks exactly for the reasons above, whatever came before it. */
  lemma JudgedBarsAreReasoned(u: Setup, before: seq<Event>, e: Event, frame: Frame)
    requires IsJudged(u, before, e, frame)
    ensures var pos, r, last := After(u, before, e.symbol).pos, u.market.study(frame), frame[|frame| - 1];
            var v := Verdict(After(u, before + [e], e.symbol).pos, Emitted(u, before, e));
            && Remembers(pos)
            && LeavesWithReason(u.cfg, pos, e.symbol, last, r, v)
            && EntersWithReason(u, pos, e.symbol, frame, r, v)
            && MarksWithReason(u, pos, e.symbol, last, r, v)
  {
    hide Kept, Decide, LeavesWithReason, EntersWithReason, MarksWithReason, Remembers;
    assert (before + [e])[..|before|] == before;
    RunsRemember(u, before, e.symbol);
    var pos := After(u, before, e.symbol).pos;
    LeavesAreReasoned(u, pos, e.symbol, frame);
    EntriesAreReasoned(u, pos, e.symbol, frame);
    MarksAreReasoned(u, pos, e.symbol, frame);
  }

  /** A bar that is not judged sends nothing and changes no position. */
  lemma OtherBarsAreSilent(u: Setup, before: seq<Event>, e: Event)
    requires forall frame :: !IsJudged(u, before, e, frame)
    ensures Emitted(u, before, e) == None
    ensures After(u, before + [e], e.symbol).pos == After(u, before, e.symbol).pos
  {
    hide Kept, Decide;
    assert (before + [e])[..|before|] == before;
    var frame := Kept(After(u, before, e.symbol).history + [e.row], u.cfg.maxBarsKept);
    assert !IsJudged(u, before, e, frame);
  }
}
