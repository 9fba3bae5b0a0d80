/** The signal engine: one position per symbol, judged against the stored bars. */
module SignalEngine {
  import opened BarStore
  import opened Options
  import opened Rounding

  /** Timestamps are in nanoseconds. */
  const MINUTE := 60000000000

  const MIN_BARS := 120

  datatype Regime = TrendUp | TrendDown | Range | NoTrade

  datatype SignalKind = TrendLong | TrendShort | RangeZone | ExitLong | ExitShort

  predicate IsExit(kind: SignalKind) {
    kind == ExitLong || kind == ExitShort
  }

  datatype Side = Long | Short

  /** A signal, with the extras that an option plan reads: stop, target and range center, to four decimals. */
  datatype Signal = Signal(
    symbol: string, kind: SignalKind, regime: Regime, price: Price, ts: int,
    stop: Option<real>, target: Option<real>, center: Option<real>)

  datatype StrategyConfig = StrategyConfig(
    maxBarsKept: int,
    minVolumeRatio: real,
    pullbackTolerance: real,
    stopBelowLow: real,
    stopAboveHigh: real,
    minRr: real,
    rangeBand: real,
    cooldownMinutes: int,
    timeStopMinutes: int,
    timeStopProgress: real,
    maxEntries: int,
    openingMinutes: int,
    requireBreakout: bool,
    maxRangeSignals: int)

  /** What the indicators say about a frame; a volume ratio without enough volume is not a number. */
  datatype Reading = Reading(
    regime: Regime, emaFast: real, macdHist: real, volumeRatio: Option<real>,
    swingLow: real, swingHigh: real, rangeCenter: real, high20: real, low20: real)

  /** The market calendar and the indicators: the local day of an instant, the opening instant of a day, regular
      hours, and the reading of a frame. */
  datatype Market = Market(day: int -> int, opening: int -> int, regular: int -> bool, study: Frame -> Reading)

  datatype Setup = Setup(cfg: StrategyConfig, market: Market)

  datatype Position = Position(
    side: Option<Side>, entryPrice: Option<Price>, entryTime: Option<int>, stop: Option<real>, target: Option<real>,
    lastSignal: Option<int>, session: Option<int>, longEntries: int, shortEntries: int, rangeSignals: int)

  const NEW_POSITION := Position(None, None, None, None, None, None, None, 0, 0, 0)

  // ---------- Parts of a decision ----------

  function Rolled(pos: Position, day: int): Position {
    if pos.session == Some(day) then pos
    else pos.(session := Some(day), longEntries := 0, shortEntries := 0, rangeSignals := 0)
  }

  function MinutesFromOpen(market: Market, ts: int): int {
    (ts - market.opening(market.day(ts))) / MINUTE
  }

  predicate OpeningRangeReady(u: Setup, ts: int) {
    MinutesFromOpen(u.market, ts) >= u.cfg.openingMinutes
  }

  predicate InOpeningRange(u: Setup, ts: int, row: Row) {
    var day := u.market.day(ts);
    u.market.day(row.ts) == day && row.ts < u.market.opening(day) + u.cfg.openingMinutes * MINUTE
  }

  /** The highest high of the opening range; without a bar in it there is none. */
  function OpeningHigh(u: Setup, ts: int, frame: Frame): Option<real> {
    if frame == [] then None
    else
      var last, before := frame[|frame| - 1], OpeningHigh(u, ts, frame[..|frame| - 1]);
      if !InOpeningRange(u, ts, last) then before
      else if before.None? then Some(last.high)
      else Some(MaxR(before.value, last.high))
  }

  function OpeningLow(u: Setup, ts: int, frame: Frame): Option<real> {
    if frame == [] then None
    else
      var last, before := frame[|frame| - 1], OpeningLow(u, ts, frame[..|frame| - 1]);
      if !InOpeningRange(u, ts, last) then before
      else if before.None? then Some(last.low)
      else Some(MinR(before.value, last.low))
  }

  /** Held long enough without enough progress. */
  predicate TimedOut(cfg: StrategyConfig, pos: Position, gain: real, ts: int) {
    && pos.entryTime.Some? && pos.entryPrice.Some?
    && ts - pos.entryTime.value >= cfg.timeStopMinutes * MINUTE
    && gain / pos.entryPrice.value <= cfg.timeStopProgress
  }

  predicate LongStopHit(pos: Position, last: Row) {
    pos.stop.Some? && last.close <= pos.stop.value
  }

  predicate ShortStopHit(pos: Position, last: Row) {
    pos.stop.Some? && last.close >= pos.stop.value
  }

  predicate LeavesLong(cfg: StrategyConfig, pos: Position, last: Row, r: Reading) {
    || LongStopHit(pos, last)
    || (pos.entryPrice.Some? && TimedOut(cfg, pos, last.close - pos.entryPrice.value, last.ts))
    || last.close < r.emaFast
    || r.regime == TrendDown
  }

  predicate LeavesShort(cfg: StrategyConfig, pos: Position, last: Row, r: Reading) {
    || ShortStopHit(pos, last)
    || (pos.entryPrice.Some? && TimedOut(cfg, pos, pos.entryPrice.value - last.close, last.ts))
    || last.close > r.emaFast
    || r.regime == TrendUp
  }

  predicate CoolingDown(cfg: StrategyConfig, pos: Position, ts: int) {
    pos.lastSignal.Some? && ts - pos.lastSignal.value < cfg.cooldownMinutes * MINUTE
  }

  predicate NearFast(cfg: StrategyConfig, last: Row, r: Reading) {
    Abs(last.close - r.emaFast) / last.close <= cfg.pullbackTolerance
  }

  predicate VolumeConfirms(cfg: StrategyConfig, r: Reading) {
    r.volumeRatio.Some? && r.volumeRatio.value >= cfg.minVolumeRatio
  }

  function LongStop(cfg: StrategyConfig, r: Reading): real {
    r.swingLow * (1.0 - cfg.stopBelowLow)
  }

  function ShortStop(cfg: StrategyConfig, r: Reading): real {
    r.swingHigh * (1.0 + cfg.stopAboveHigh)
  }

  /** How far away the target is: a multiple of the risk, and at least 0.3 percent. */
  function Reward(cfg: StrategyConfig, risk: real, price: real): real {
    MaxR(risk * cfg.minRr, price * 0.003)
  }

  predicate EntersLong(u: Setup, pos: Position, frame: Frame, r: Reading)
    requires frame != []
  {
    var last := frame[|frame| - 1];
    var high := OpeningHigh(u, last.ts, frame);
    && !(u.cfg.requireBreakout && (!OpeningRangeReady(u, last.ts) || (high.Some? && last.close <= high.value)))
    && pos.longEntries < u.cfg.maxEntries
    && NearFast(u.cfg, last, r)
    && r.macdHist > 0.0 && VolumeConfirms(u.cfg, r)
    && last.close - LongStop(u.cfg, r) > 0.0
  }

  predicate EntersShort(u: Setup, pos: Position, frame: Frame, r: Reading)
    requires frame != []
  {
    var last := frame[|frame| - 1];
    var low := OpeningLow(u, last.ts, frame);
    && !(u.cfg.requireBreakout && (!OpeningRangeReady(u, last.ts) || (low.Some? && last.close >= low.value)))
    && pos.shortEntries < u.cfg.maxEntries
    && NearFast(u.cfg, last, r)
    && r.macdHist < 0.0 && VolumeConfirms(u.cfg, r)
    && ShortStop(u.cfg, r) - last.close > 0.0
  }

  predicate MarksRange(u: Setup, pos: Position, last: Row, r: Reading) {
    && OpeningRangeReady(u, last.ts)
    && pos.rangeSignals < u.cfg.maxRangeSignals
    && Abs(last.close - r.rangeCenter) / last.close <= u.cfg.rangeBand
    && (r.high20 - r.low20) / last.close <= 0.01
  }

  // ---------- The decision ----------

  datatype Verdict = Verdict(pos: Position, signal: Option<Signal>)

  /** An exit carries the stop when the stop was hit. */
  function EmitExit(symbol: string, kind: SignalKind, last: Row, r: Reading, stop: Option<real>): Option<Signal> {
    var shown := if stop.Some? then Some(Round4(stop.value)) else None;
    Some(Signal(symbol, kind, r.regime, last.close, last.ts, shown, None, None))
  }

  function EmitEntry(
      symbol: string, kind: SignalKind, last: Row, r: Reading, stop: real, target: real): Option<Signal>
  {
    Some(Signal(symbol, kind, r.regime, last.close, last.ts, Some(Round4(stop)), Some(Round4(target)), None))
  }

  function EmitRange(symbol: string, last: Row, r: Reading): Option<Signal> {
    Some(Signal(symbol, RangeZone, r.regime, last.close, last.ts, None, None, Some(Round4(r.rangeCenter))))
  }

  function Left(pos: Position, ts: int): Position {
    pos.(side := None, lastSignal := Some(ts))
  }

  function LongTarget(cfg: StrategyConfig, last: Row, r: Reading): real {
    last.close + Reward(cfg, last.close - LongStop(cfg, r), last.close)
  }

  function ShortTarget(cfg: StrategyConfig, last: Row, r: Reading): real {
    last.close - Reward(cfg, ShortStop(cfg, r) - last.close, last.close)
  }

  function WentLong(cfg: StrategyConfig, pos: Position, last: Row, r: Reading): Position {
    pos.(side := Some(Long), entryPrice := Some(last.close), entryTime := Some(last.ts),
         stop := Some(LongStop(cfg, r)), target := Some(LongTarget(cfg, last, r)),
         lastSignal := Some(last.ts), longEntries := pos.longEntries + 1)
  }

  function WentShort(cfg: StrategyConfig, pos: Position, last: Row, r: Reading): Position {
    pos.(side := Some(Short), entryPrice := Some(last.close), entryTime := Some(last.ts),
         stop := Some(ShortStop(cfg, r)), target := Some(ShortTarget(cfg, last, r)),
         lastSignal := Some(last.ts), shortEntries := pos.shortEntries + 1)
  }

  /** Exits come first; then the cooldown; then what the regime allows. */
  function Decide(u: Setup, pos: Position, symbol: string, frame: Frame): Verdict
    requires frame != []
  {
    var r, last := u.market.study(frame), frame[|frame| - 1];
    if pos.side == Some(Long) && LeavesLong(u.cfg, pos, last, r) then
      Verdict(Left(pos, last.ts),
              EmitExit(symbol, ExitLong, last, r, if LongStopHit(pos, last) then pos.stop else None))
    else if pos.side == Some(Short) && LeavesShort(u.cfg, pos, last, r) then
      Verdict(Left(pos, last.ts),
              EmitExit(symbol, ExitShort, last, r, if ShortStopHit(pos, last) then pos.stop else None))
    else if CoolingDown(u.cfg, pos, last.ts) then
      Verdict(pos, None)
    else if r.regime == TrendUp && pos.side == None && EntersLong(u, pos, frame, r) then
      Verdict(WentLong(u.cfg, pos, last, r),
              EmitEntry(symbol, TrendLong, last, r, LongStop(u.cfg, r), LongTarget(u.cfg, last, r)))
    else if r.regime == TrendDown && pos.side == None && EntersShort(u, pos, frame, r) then
      Verdict(WentShort(u.cfg, pos, last, r),
              EmitEntry(symbol, TrendShort, last, r, ShortStop(u.cfg, r), ShortTarget(u.cfg, last, r)))
    else if r.regime == Range && MarksRange(u, pos, last, r) then
      Verdict(pos.(lastSignal := Some(last.ts), rangeSignals := pos.rangeSignals + 1), EmitRange(symbol, last, r))
    else Verdict(pos, None)
  }

  /** With fewer than 120 bars nothing happens; otherwise the position first rolls to the session of the last bar. */
  function Evaluate(u: Setup, pos: Position, symbol: string, frame: Frame): Verdict {
    if |frame| < MIN_BARS then Verdict(pos, None)
    else Decide(u, Rolled(pos, u.market.day(frame[|frame| - 1].ts)), symbol, frame)
  }

  /** What the target of a short entry is: below zero exactly when the risk times the reward ratio exceeds the price;
      and the signal shows it below zero when it exceeds the price by more than half a unit of the fourth decimal. */
  lemma ShortTargetsBelowZero(u: Setup, pos: Position, symbol: string, frame: Frame)
    requires frame != []
    requires var x := Decide(u, pos, symbol, frame).signal; x.Some? && x.value.kind == TrendShort
    ensures var v, r, close := Decide(u, pos, symbol, frame), u.market.study(frame), frame[|frame| - 1].close;
            var reach := (ShortStop(u.cfg, r) - close) * u.cfg.minRr;
            && v.pos.target.Some? && v.signal.value.target == Some(Round4(v.pos.target.value))
            && (v.pos.target.value < 0.0 <==> reach > close)
            && (v.signal.value.target.value < 0.0 <==> reach > close + 0.00005)
  {
    hide LeavesLong, LeavesShort, EntersLong, EntersShort, CoolingDown, MarksRange, ShortStop, LongStop;
    Round4BelowZero(ShortTarget(u.cfg, frame[|frame| - 1], u.market.study(frame)));
  }

  lemma Round4BelowZero(x: real)
    ensures Round4(x) < 0.0 <==> x < -0.00005
  {
  }

  // ---------- The engine ----------

  class PositionState {
    var side: Option<Side>
    var entryPrice: Option<Price>
    var entryTime: Option<int>
    var stop: Option<real>
    var target: Option<real>
    var lastSignal: Option<int>
    var session: Option<int>
    var longEntries: int
    var shortEntries: int
    var rangeSignals: int

    constructor ()
      ensures Value() == NEW_POSITION
    {
      side, entryPrice, entryTime, stop, target, lastSignal := None, None, None, None, None, None;
      session, longEntries, shortEntries, rangeSignals := None, 0, 0, 0;
    }

    ghost function Value(): Position
      reads this
    {
      Position(side, entryPrice, entryTime, stop, target, lastSignal, session, longEntries, shortEntries, rangeSignals)
    }

    method Roll(day: int)
      modifies this
      ensures Value() == Rolled(old(Value()), day)
    {
      if session == Some(day) {
        return;
      }
      session := Some(day);
      longEntries, shortEntries, rangeSignals := 0, 0, 0;
    }

    method Leave(symbol: string, kind: SignalKind, last: Row, r: Reading, shown: Option<real>)
      returns (signal: Option<Signal>)
      modifies `side, `lastSignal
      ensures Value() == Left(old(Value()), last.ts) && signal == EmitExit(symbol, kind, last, r, shown)
    {
      side := None;
      lastSignal := Some(last.ts);
      signal := EmitExit(symbol, kind, last, r, shown);
    }

    method Judge(u: Setup, symbol: string, frame: Frame) returns (signal: Option<Signal>)
      requires frame != []
      modifies this
      ensures Verdict(Value(), signal) == Decide(u, old(Value()), symbol, frame)
    {
      hide LeavesLong, LeavesShort, EntersLong, EntersShort, WentLong, WentShort, MarksRange, CoolingDown, EmitExit,
           EmitEntry, EmitRange, LongStopHit, ShortStopHit;
      var r, last := u.market.study(frame), frame[|frame| - 1];
      var here := Position(side, entryPrice, entryTime, stop, target, lastSignal, session, longEntries, shortEntries,
                           rangeSignals);
      signal := None;
      if side == Some(Long) && LeavesLong(u.cfg, here, last, r) {
        signal := Leave(symbol, ExitLong, last, r, if LongStopHit(here, last) then stop else None);
        return;
      }
      if side == Some(Short) && LeavesShort(u.cfg, here, last, r) {
        signal := Leave(symbol, ExitShort, last, r, if ShortStopHit(here, last) then stop else None);
        return;
      }
      if CoolingDown(u.cfg, here, last.ts) {
        return;
      }
      if r.regime == TrendUp && side == None {
        signal := TryLong(u, symbol, frame, r);
      } else if r.regime == TrendDown && side == None {
        signal := TryShort(u, symbol, frame, r);
      } else if r.regime == Range && MarksRange(u, here, last, r) {
        lastSignal, rangeSignals := Some(last.ts), rangeSignals + 1;
        signal := EmitRange(symbol, last, r);
      }
    }

    method TryLong(u: Setup, symbol: string, frame: Frame, r: Reading) returns (signal: Option<Signal>)
      requires frame != []
      modifies this
      ensures var pos, last := old(Value()), frame[|frame| - 1];
              Verdict(Value(), signal) ==
              if EntersLong(u, pos, frame, r)
              then Verdict(WentLong(u.cfg, pos, last, r),
                           EmitEntry(symbol, TrendLong, last, r, LongStop(u.cfg, r), LongTarget(u.cfg, last, r)))
              else Verdict(pos, None)
    {
      hide OpeningHigh, OpeningRangeReady, NearFast, VolumeConfirms, LongStop, Reward, EmitEntry;
      var last := frame[|frame| - 1];
      var high := OpeningHigh(u, last.ts, frame);
      signal := None;
      if u.cfg.requireBreakout && (!OpeningRangeReady(u, last.ts) || (high.Some? && last.close <= high.value)) {
        return;
      }
      if longEntries >= u.cfg.maxEntries {
        return;
      }
      var newStop := LongStop(u.cfg, r);
      var risk := last.close - newStop;
      if NearFast(u.cfg, last, r) && r.macdHist > 0.0 && VolumeConfirms(u.cfg, r) && risk > 0.0 {
        side, entryPrice, entryTime := Some(Long), Some(last.close), Some(last.ts);
        stop, target := Some(newStop), Some(last.close + Reward(u.cfg, risk, last.close));
        lastSignal, longEntries := Some(last.ts), longEntries + 1;
        signal := EmitEntry(symbol, TrendLong, last, r, newStop, target.value);
      }
    }

    method TryShort(u: Setup, symbol: string, frame: Frame, r: Reading) returns (signal: Option<Signal>)
      requires frame != []
      modifies this
      ensures var pos, last := old(Value()), frame[|frame| - 1];
              Verdict(Value(), signal) ==
              if EntersShort(u, pos, frame, r)
              then Verdict(WentShort(u.cfg, pos, last, r),
                           EmitEntry(symbol, TrendShort, last, r, ShortStop(u.cfg, r), ShortTarget(u.cfg, last, r)))
              else Verdict(pos, None)
    {
      hide OpeningLow, OpeningRangeReady, NearFast, VolumeConfirms, ShortStop, Reward, EmitEntry;
      var last := frame[|frame| - 1];
      var low := OpeningLow(u, last.ts, frame);
      signal := None;
      if u.cfg.requireBreakout && (!OpeningRangeReady(u, last.ts) || (low.Some? && last.close >= low.value)) {
        return;
      }
      if shortEntries >= u.cfg.maxEntries {
        return;
      }
      var newStop := ShortStop(u.cfg, r);
      var risk := newStop - last.close;
      if NearFast(u.cfg, last, r) && r.macdHist < 0.0 && VolumeConfirms(u.cfg, r) && risk > 0.0 {
        side, entryPrice, entryTime := Some(Short), Some(last.close), Some(last.ts);
        stop, target := Some(newStop), Some(last.close - Reward(u.cfg, risk, last.close));
        lastSignal, shortEntries := Some(last.ts), shortEntries + 1;
        signal := EmitEntry(symbol, TrendShort, last, r, newStop, target.value);
      }
    }
  }

  class SignalEngine {
    const setup: Setup
    var positions: map<string, PositionState>

    constructor (setup: Setup)
      ensures this.setup == setup && positions == map[] && Valid()
    {
      this.setup := setup;
      positions := map[];
    }

    /** Different symbols have different positions. */
    ghost predicate Valid()
      reads this
    {
      forall a, b :: a in positions && b in positions && a != b ==> positions[a] != positions[b]
    }

    /** A symbol that was never looked at has a new position. */
    ghost function PositionOf(symbol: string): Position
      reads this, positions.Values
    {
      if symbol in positions then positions[symbol].Value() else NEW_POSITION
    }

    method EvaluateFrame(symbol: string, frame: Frame) returns (signal: Option<Signal>)
      requires Valid()
      modifies this, positions.Values
      ensures Valid() && fresh(positions.Values - old(positions.Values))
      ensures Verdict(PositionOf(symbol), signal) == Evaluate(setup, old(PositionOf(symbol)), symbol, frame)
      ensures forall other :: other != symbol ==> PositionOf(other) == old(PositionOf(other))
    {
      hide Decide;
      if |frame| < MIN_BARS {
        return None;
      }
      if symbol !in positions {
        var created := new PositionState();
        positions := positions[symbol := created];
      }
      var pos := positions[symbol];
      pos.Roll(setup.market.day(frame[|frame| - 1].ts));
      signal := pos.Judge(setup, symbol, frame);
    }
  }
}
