/** Whole runs of the signal pipeline: what the stream of signals of each symbol looks like. */
module SignalPipeline {
  import opened BarStore
  import opened Options
  import opened Rounding
  import opened SignalEngine

  /** One call of the pipeline; without `emit` the bar is only stored. */
  datatype Event = Event(symbol: string, row: Row, emit: bool)

  /** All bars sent for a symbol, and its position. */
  datatype Cell = Cell(history: seq<Row>, pos: Position)

  datatype Progress = Progress(cell: Cell, signal: Option<Signal>)

  function Advance(u: Setup, c: Cell, e: Event): Progress {
    if !u.market.regular(e.row.ts) then Progress(c, None)
    else
      var history := c.history + [e.row];
      if !e.emit then Progress(c.(history := history), None)
      else
        var v := Evaluate(u, c.pos, e.symbol, Kept(history, u.cfg.maxBarsKept));
        Progress(Cell(history, v.pos), v.signal)
  }

  /** A symbol after a run; bars of other symbols pass it by. */
  function After(u: Setup, events: seq<Event>, symbol: string): Cell {
    if events == [] then Cell([], NEW_POSITION)
    else
      var before, e := events[..|events| - 1], events[|events| - 1];
      var c := After(u, before, symbol);
      if e.symbol == symbol then Advance(u, c, e).cell else c
  }

  function Emitted(u: Setup, before: seq<Event>, e: Event): Option<Signal> {
    Advance(u, After(u, before, e.symbol), e).signal
  }

  /** All signals of a run, in order. */
  function Stream(u: Setup, events: seq<Event>): seq<Signal> {
    if events == [] then []
    else
      var before := events[..|events| - 1];
      var x := Emitted(u, before, events[|events| - 1]);
      Stream(u, before) + (if x.Some? then [x.value] else [])
  }

  function Own(stream: seq<Signal>, symbol: string): seq<Signal> {
    if stream == [] then []
    else
      var last := stream[|stream| - 1];
      Own(stream[..|stream| - 1], symbol) + (if last.symbol == symbol then [last] else [])
  }

  /** The exit is of the side of the entry. */
  predicate Matches(entry: Signal, exit: Signal) {
    || (entry.kind == TrendLong && exit.kind == ExitLong)
    || (entry.kind == TrendShort && exit.kind == ExitShort)
  }

  // ---------- What one call does ----------

  function Appended(own: seq<Signal>, x: Option<Signal>): seq<Signal> {
    if x.Some? then own + [x.value] else own
  }

  lemma OwnSnoc(stream: seq<Signal>, x: Signal, symbol: string)
    ensures Own(stream + [x], symbol) == Own(stream, symbol) + (if x.symbol == symbol then [x] else [])
  {
    assert (stream + [x])[..|stream|] == stream;
  }

  lemma DecisionNamesItsSymbol(u: Setup, pos: Position, symbol: string, frame: Frame)
    requires frame != []
    ensures var x := Decide(u, pos, symbol, frame).signal;
            x.Some? ==> x.value.symbol == symbol && x.value.ts == frame[|frame| - 1].ts
  {
  }

  /** The own signals of a symbol grow only by what its own bars emit. */
  lemma OwnGrows(u: Setup, before: seq<Event>, e: Event, symbol: string)
    ensures var own := Own(Stream(u, before), symbol);
            Own(Stream(u, before + [e]), symbol)
              == if e.symbol == symbol then Appended(own, Emitted(u, before, e)) else own
  {
    hide Decide, Kept, After, Own;
    assert (before + [e])[..|before|] == before;
    var c := After(u, before, e.symbol);
    var frame := Kept(c.history + [e.row], u.cfg.maxBarsKept);
    if |frame| >= MIN_BARS {
      DecisionNamesItsSymbol(u, Rolled(c.pos, u.market.day(frame[|frame| - 1].ts)), e.symbol, frame);
    }
    var x := Emitted(u, before, e);
    if x.Some? {
      OwnSnoc(Stream(u, before), x.value, symbol);
    } else {
      assert Stream(u, before) + [] == Stream(u, before);
    }
  }

  // ---------- What a decision does to a position ----------

  /** The state of an alternation of entries and exits. */
  datatype Holding = Flat | Holds(side: Side) | Broken

  function HoldingOf(side: Option<Side>): Holding {
    if side.None? then Flat else Holds(side.value)
  }

  function NextHolding(h: Holding, kind: SignalKind): Holding {
    match kind
    case TrendLong => if h == Flat then Holds(Long) else Broken
    case TrendShort => if h == Flat then Holds(Short) else Broken
    case ExitLong => if h == Holds(Long) then Flat else Broken
    case ExitShort => if h == Holds(Short) then Flat else Broken
    case RangeZone => h
  }

  function HoldingAfter(own: seq<Signal>): Holding {
    if own == [] then Flat
    else NextHolding(HoldingAfter(own[..|own| - 1]), own[|own| - 1].kind)
  }

  predicate Stopped(pos: Position, close: real) {
    match pos.side
    case None => true
    case Some(Long) => pos.stop.Some? && close > pos.stop.value
    case Some(Short) => pos.stop.Some? && close < pos.stop.value
  }

  function Limit(u: Setup, kind: SignalKind): int {
    if kind == RangeZone then u.cfg.maxRangeSignals else u.cfg.maxEntries
  }

  function Counter(pos: Position, kind: SignalKind): int {
    match kind
    case TrendLong => pos.longEntries
    case TrendShort => pos.shortEntries
    case RangeZone => pos.rangeSignals
    case _ => 0
  }

  /** Everything the theorems below need to know about one decision. */
  ghost predicate GoodVerdict(u: Setup, pos: Position, symbol: string, last: Row, v: Verdict) {
    && v.pos.session == pos.session
    && (v.signal.None? ==> v.pos == pos)
    && (v.signal.Some? ==>
          var x := v.signal.value;
          && x.symbol == symbol && x.ts == last.ts && x.price == last.close
          && v.pos.lastSignal == Some(last.ts)
          && NextHolding(HoldingOf(pos.side), x.kind) == HoldingOf(v.pos.side)
          && (forall kind :: !IsExit(kind) ==>
                Counter(v.pos, kind) == Counter(pos, kind) + if kind == x.kind then 1 else 0)
          && (!IsExit(x.kind) ==> !CoolingDown(u.cfg, pos, last.ts) && Counter(pos, x.kind) < Limit(u, x.kind)))
    && ((pos.side.Some? ==> pos.stop.Some?) ==> Stopped(v.pos, last.close))
  }

  lemma DecisionsAreGood(u: Setup, pos: Position, symbol: string, frame: Frame)
    requires frame != []
    ensures GoodVerdict(u, pos, symbol, frame[|frame| - 1], Decide(u, pos, symbol, frame))
  {
    hide OpeningHigh, OpeningLow, OpeningRangeReady, NearFast, VolumeConfirms, LongStop, ShortStop, Reward, TimedOut,
         CoolingDown;
  }

  // ---------- Times ----------

  /** The last row of the frame is one of the rows sent, and no row sent is later. */
  lemma LastRow(history: seq<Row>, cap: int)
    requires Kept(history, cap) != []
    ensures var f := Kept(history, cap);
            && HasTime(history, f[|f| - 1].ts)
            && forall ts :: HasTime(history, ts) ==> ts <= f[|f| - 1].ts
  {
    hide Kept;
    var f := Kept(history, cap);
    KeptIsNewest(history, cap);
    assert f[|f| - 1] in f;
    LastRowIsNewest(history, cap);
  }

  /** Local dates follow the clock. */
  ghost predicate DaysFollow(market: Market) {
    forall a: int, b: int :: a <= b ==> market.day(a) <= market.day(b)
  }

  function CountOn(market: Market, own: seq<Signal>, kind: SignalKind, day: int): nat {
    if own == [] then 0
    else
      var last := own[|own| - 1];
      CountOn(market, own[..|own| - 1], kind, day) + (if last.kind == kind && market.day(last.ts) == day then 1 else 0)
  }

  ghost predicate InTimeOrder(own: seq<Signal>) {
    forall i, j :: 0 <= i < j < |own| ==> own[i].ts <= own[j].ts
  }

  ghost predicate Spaced(cfg: StrategyConfig, own: seq<Signal>) {
    forall i, j :: 0 <= i < j < |own| && !IsExit(own[j].kind) ==>
      own[j].ts - own[i].ts >= cfg.cooldownMinutes * MINUTE
  }

  ghost predicate Capped(u: Setup, own: seq<Signal>) {
    forall kind, day :: !IsExit(kind) ==> CountOn(u.market, own, kind, day) <= Max(0, Limit(u, kind))
  }

  // ---------- The invariants of a symbol ----------

  ghost predicate ShapeInv(c: Cell, own: seq<Signal>) {
    && HoldingAfter(own) == HoldingOf(c.pos.side)
    && (c.pos.side.Some? ==> c.pos.stop.Some?)
  }

  ghost predicate TimeInv(u: Setup, c: Cell, own: seq<Signal>) {
    && InTimeOrder(own) && Spaced(u.cfg, own)
    && (own != [] ==> c.pos.lastSignal == Some(own[|own| - 1].ts))
    && (forall i :: 0 <= i < |own| ==> HasTime(c.history, own[i].ts))
  }

  ghost predicate CountInv(u: Setup, c: Cell, own: seq<Signal>) {
    && Capped(u, own)
    && (forall i :: 0 <= i < |own| ==> c.pos.session.Some? && u.market.day(own[i].ts) <= c.pos.session.value)
    && (c.pos.session.Some? ==> exists ts :: HasTime(c.history, ts) && u.market.day(ts) == c.pos.session.value)
    && (forall kind :: !IsExit(kind) ==>
          Counter(c.pos, kind) == if c.pos.session.None? then 0
                                  else CountOn(u.market, own, kind, c.pos.session.value))
  }

  // ---------- One call keeps them ----------

  predicate IsEvaluated(u: Setup, c: Cell, e: Event) {
    && u.market.regular(e.row.ts) && e.emit
    && |Kept(c.history + [e.row], u.cfg.maxBarsKept)| >= MIN_BARS
  }

  /** The row a call judges, which is not always the row it brings. */
  function JudgedRow(u: Setup, c: Cell, e: Event): Row
    requires IsEvaluated(u, c, e)
  {
    var frame := Kept(c.history + [e.row], u.cfg.maxBarsKept);
    frame[|frame| - 1]
  }

  lemma AdvanceWithoutVerdict(u: Setup, c: Cell, e: Event)
    requires !IsEvaluated(u, c, e)
    ensures var p := Advance(u, c, e);
            && p.signal == None && p.cell.pos == c.pos
            && (p.cell.history == c.history || p.cell.history == c.history + [e.row])
  {
    hide Kept, Decide;
  }

  lemma AdvanceWithVerdict(u: Setup, c: Cell, e: Event)
    requires IsEvaluated(u, c, e)
    ensures var p, last := Advance(u, c, e), JudgedRow(u, c, e);
            && p.cell.history == c.history + [e.row]
            && GoodVerdict(u, Rolled(c.pos, u.market.day(last.ts)), e.symbol, last, Verdict(p.cell.pos, p.signal))
            && HasTime(p.cell.history, last.ts)
            && (forall ts :: HasTime(c.history, ts) ==> ts <= last.ts)
  {
    hide Kept, Decide, GoodVerdict;
    var history := c.history + [e.row];
    var frame := Kept(history, u.cfg.maxBarsKept);
    DecisionsAreGood(u, Rolled(c.pos, u.market.day(frame[|frame| - 1].ts)), e.symbol, frame);
    LastRow(history, u.cfg.maxBarsKept);
    forall ts | HasTime(c.history, ts)
      ensures ts <= frame[|frame| - 1].ts
    {
      HasTimeSnoc(c.history, e.row, ts);
    }
  }

  lemma ShapeStep(u: Setup, c: Cell, e: Event, own: seq<Signal>)
    requires ShapeInv(c, own)
    ensures var p := Advance(u, c, e); ShapeInv(p.cell, Appended(own, p.signal))
    ensures IsEvaluated(u, c, e) ==> Stopped(Advance(u, c, e).cell.pos, JudgedRow(u, c, e).close)
  {
    hide Advance, IsEvaluated, JudgedRow;
    if !IsEvaluated(u, c, e) {
      AdvanceWithoutVerdict(u, c, e);
    } else {
      AdvanceWithVerdict(u, c, e);
      var x := Advance(u, c, e).signal;
      if x.Some? {
        assert (own + [x.value])[..|own|] == own;
      }
    }
  }

  lemma TimeStep(u: Setup, c: Cell, e: Event, own: seq<Signal>)
    requires TimeInv(u, c, own)
    ensures var p := Advance(u, c, e); TimeInv(u, p.cell, Appended(own, p.signal))
  {
    hide Advance, IsEvaluated, JudgedRow, HasTime;
    forall i | 0 <= i < |own|
      ensures HasTime(c.history + [e.row], own[i].ts)
    {
      HasTimeSnoc(c.history, e.row, own[i].ts);
    }
    if !IsEvaluated(u, c, e) {
      AdvanceWithoutVerdict(u, c, e);
    } else {
      AdvanceWithVerdict(u, c, e);
    }
  }

  lemma {:induction false} NothingOnLaterDays(market: Market, own: seq<Signal>, kind: SignalKind, day: int)
    requires forall i :: 0 <= i < |own| ==> market.day(own[i].ts) < day
    ensures CountOn(market, own, kind, day) == 0
  {
    if own != [] {
      NothingOnLaterDays(market, own[..|own| - 1], kind, day);
    }
  }

  /** After rolling to the day of a row that is not older, the counters count that day. */
  lemma RolledCounters(u: Setup, c: Cell, own: seq<Signal>, ts: int)
    requires DaysFollow(u.market) && CountInv(u, c, own)
    requires forall t :: HasTime(c.history, t) ==> t <= ts
    ensures forall i :: 0 <= i < |own| ==> u.market.day(own[i].ts) <= u.market.day(ts)
    ensures forall kind :: !IsExit(kind) ==>
      Counter(Rolled(c.pos, u.market.day(ts)), kind) == CountOn(u.market, own, kind, u.market.day(ts))
  {
    hide HasTime, CountOn, Capped;
    var day := u.market.day(ts);
    if c.pos.session.Some? {
      var t :| HasTime(c.history, t) && u.market.day(t) == c.pos.session.value;
      assert t <= ts;
    }
    forall kind | !IsExit(kind)
      ensures Counter(Rolled(c.pos, day), kind) == CountOn(u.market, own, kind, day)
    {
      if c.pos.session != Some(day) {
        NothingOnLaterDays(u.market, own, kind, day);
      }
    }
  }

  lemma CountSnoc(market: Market, own: seq<Signal>, x: Signal, kind: SignalKind, day: int)
    ensures CountOn(market, own + [x], kind, day)
         == CountOn(market, own, kind, day) + if x.kind == kind && market.day(x.ts) == day then 1 else 0
  {
    assert (own + [x])[..|own|] == own;
  }

  lemma CountStep(u: Setup, c: Cell, e: Event, own: seq<Signal>)
    requires DaysFollow(u.market) && CountInv(u, c, own)
    ensures var p := Advance(u, c, e); CountInv(u, p.cell, Appended(own, p.signal))
  {
    hide Advance, IsEvaluated, JudgedRow, HasTime, DaysFollow, CountOn;
    if !IsEvaluated(u, c, e) {
      AdvanceWithoutVerdict(u, c, e);
      if c.pos.session.Some? {
        var ts :| HasTime(c.history, ts) && u.market.day(ts) == c.pos.session.value;
        HasTimeSnoc(c.history, e.row, ts);
        assert HasTime(Advance(u, c, e).cell.history, ts);
      }
    } else {
      AdvanceWithVerdict(u, c, e);
      var last := JudgedRow(u, c, e);
      RolledCounters(u, c, own, last.ts);
      var p := Advance(u, c, e);
      if p.signal.Some? {
        forall kind, day
          ensures CountOn(u.market, own + [p.signal.value], kind, day)
               == CountOn(u.market, own, kind, day)
                  + if p.signal.value.kind == kind && u.market.day(last.ts) == day then 1 else 0
        {
          CountSnoc(u.market, own, p.signal.value, kind, day);
        }
      }
    }
  }

  // ---------- Whole runs ----------

  lemma InvariantsStart(u: Setup)
    ensures var c := Cell([], NEW_POSITION); ShapeInv(c, []) && TimeInv(u, c, []) && CountInv(u, c, [])
  {
  }

  lemma {:induction false} RunKeepsInvariants(u: Setup, events: seq<Event>, symbol: string)
    ensures var c, own := After(u, events, symbol), Own(Stream(u, events), symbol);
            ShapeInv(c, own) && TimeInv(u, c, own) && (DaysFollow(u.market) ==> CountInv(u, c, own))
  {
    hide Advance, ShapeInv, TimeInv, CountInv, DaysFollow;
    if events == [] {
      InvariantsStart(u);
    } else {
      var before, e := events[..|events| - 1], events[|events| - 1];
      RunKeepsInvariants(u, before, symbol);
      assert events == before + [e];
      OwnGrows(u, before, e, symbol);
      if e.symbol == symbol {
        var c, own := After(u, before, symbol), Own(Stream(u, before), symbol);
        ShapeStep(u, c, e, own);
        TimeStep(u, c, e, own);
        if DaysFollow(u.market) {
          CountStep(u, c, e, own);
        }
      }
    }
  }

  /** Whatever order bars arrive in and whatever the indicators say, the directional signals of a symbol are entries,
      each followed by the exit of its own side, and the open side is the side of the last unmatched entry. */
  lemma SignalsAlternate(u: Setup, events: seq<Event>, symbol: string)
    ensures HoldingAfter(Own(Stream(u, events), symbol)) == HoldingOf(After(u, events, symbol).pos.side)
  {
    hide Stream, After, Own;
    RunKeepsInvariants(u, events, symbol);
  }

  /** The signals of a symbol are in time order, and one that is not an exit keeps the cooldown from all before it. */
  lemma SignalsAreSpaced(u: Setup, events: seq<Event>, symbol: string)
    ensures InTimeOrder(Own(Stream(u, events), symbol)) && Spaced(u.cfg, Own(Stream(u, events), symbol))
  {
    hide Stream, After, Own, InTimeOrder, Spaced;
    RunKeepsInvariants(u, events, symbol);
  }

  /** On each local day a symbol gets no more entries of a side and no more range signals than configured. */
  lemma SessionsAreCapped(u: Setup, events: seq<Event>, symbol: string)
    requires DaysFollow(u.market)
    ensures Capped(u, Own(Stream(u, events), symbol))
  {
    hide Stream, After, Own, Capped;
    RunKeepsInvariants(u, events, symbol);
  }

  /** A side that stays open after a bar was judged has that bar's close on the good side of its stop. */
  lemma OpenSidesAreAboveTheirStops(u: Setup, before: seq<Event>, e: Event)
    requires IsEvaluated(u, After(u, before, e.symbol), e)
    ensures Stopped(After(u, before + [e], e.symbol).pos, JudgedRow(u, After(u, before, e.symbol), e).close)
  {
    hide Stream, Own, Stopped, ShapeInv, TimeInv, IsEvaluated, JudgedRow;
    RunKeepsInvariants(u, before, e.symbol);
    ShapeStep(u, After(u, before, e.symbol), e, Own(Stream(u, before), e.symbol));
    assert (before + [e])[..|before|] == before;
  }

  /** A store for fewer than 120 bars never lets a signal through. */
  lemma {:induction false} ShortStoresAreSilent(u: Setup, events: seq<Event>)
    requires u.cfg.maxBarsKept < MIN_BARS
    ensures Stream(u, events) == []
  {
    hide Kept, Decide, Advance;
    if events != [] {
      var before, e := events[..|events| - 1], events[|events| - 1];
      ShortStoresAreSilent(u, before);
      var c := After(u, before, e.symbol);
      KeptIsNewest(c.history + [e.row], u.cfg.maxBarsKept);
      AdvanceWithoutVerdict(u, c, e);
    }
  }

  // ---------- The pipeline ----------

  lemma AfterOneMore(u: Setup, before: seq<Event>, e: Event)
    ensures forall symbol :: e.symbol == symbol ==>
      After(u, before + [e], symbol) == Advance(u, After(u, before, symbol), e).cell
    ensures forall symbol :: e.symbol != symbol ==> After(u, before + [e], symbol) == After(u, before, symbol)
  {
    assert (before + [e])[..|before|] == before;
  }

  class StrategyPipeline {
    const setup: Setup
    const store: LiveBarStore
    const engine: SignalEngine
    ghost var log: seq<Event>

    /** Store and engine hold exactly what the calls so far lead to, for every symbol. */
    ghost predicate Valid()
      reads this, store, engine, engine.positions.Values
    {
      && store.Valid() && store.cap == setup.cfg.maxBarsKept
      && engine.Valid() && engine.setup == setup
      && forall symbol :: Cell(store.Sent(symbol), engine.PositionOf(symbol)) == After(setup, log, symbol)
    }

    constructor (setup: Setup)
      ensures Valid() && this.setup == setup && log == []
      ensures fresh(store) && fresh(engine) && fresh(engine.positions.Values)
    {
      this.setup := setup;
      store := new LiveBarStore(setup.cfg.maxBarsKept);
      engine := new SignalEngine(setup);
      log := [];
    }

    method ProcessBar(symbol: string, row: Row, emit: bool) returns (signal: Option<Signal>)
      requires Valid()
      modifies this, store, engine, engine.positions.Values
      ensures Valid() && fresh(engine.positions.Values - old(engine.positions.Values))
      ensures log == old(log) + [Event(symbol, row, emit)]
      ensures signal == Emitted(setup, old(log), Event(symbol, row, emit))
    {
      hide Kept, Evaluate, After, LiveBarStore.Sent, SignalEngine.PositionOf;
      ghost var e := Event(symbol, row, emit);
      ghost var c := After(setup, log, symbol);
      assert c == Cell(store.Sent(symbol), engine.PositionOf(symbol));
      AfterOneMore(setup, log, e);
      signal := None;
      log := log + [e];
      if setup.market.regular(row.ts) {
        var frame := store.UpsertBar(symbol, row);
        if emit {
          signal := engine.EvaluateFrame(symbol, frame);
        }
      }
    }
  }

  lemma NothingStreams(u: Setup)
    ensures Stream(u, []) == []
  {
  }

  lemma StreamOneMore(u: Setup, before: seq<Event>, e: Event)
    ensures Stream(u, before + [e]) == Appended(Stream(u, before), Emitted(u, before, e))
  {
    hide Emitted;
    assert (before + [e])[..|before|] == before;
  }

  /** Replaying bars collects the stream of the run. */
  method ReplaySignals(setup: Setup, events: seq<Event>) returns (signals: seq<Signal>)
    ensures signals == Stream(setup, events)
  {
    hide Stream, Emitted, StrategyPipeline.Valid;
    var pipeline := new StrategyPipeline(setup);
    signals := [];
    assert events[..0] == [];
    NothingStreams(setup);
    for i := 0 to |events|
      invariant pipeline.Valid() && pipeline.setup == setup && pipeline.log == events[..i]
      invariant fresh(pipeline) && fresh(pipeline.store) && fresh(pipeline.engine)
      invariant fresh(pipeline.engine.positions.Values)
      invariant signals == Stream(setup, events[..i])
    {
      var signal := pipeline.ProcessBar(events[i].symbol, events[i].row, events[i].emit);
      assert events[..i + 1] == events[..i] + [events[i]];
      StreamOneMore(setup, events[..i], events[i]);
      if signal.Some? {
        signals := signals + [signal.value];
      }
    }
    assert events[..|events|] == events;
  }
}
