/** The option backtest: the signals of a replay, traded by the simulator on the bars they came from. */
module OptionBacktest {
  import opened BarStore
  import opened Calendar
  import opened OptionLegs
  import opened OptionPlans
  import opened OptionSimulator
  import opened SignalEngine
  import opened SignalPipeline
  import SS = SignalSummary
  import opened TradingDays

  /** The instant at which options of a day expire: not before the end of regular hours, and later on later days. */
  ghost predicate ClosesFollow(market: Market, close: int -> int) {
    && (forall ts :: market.regular(ts) ==> ts <= close(market.day(ts)))
    && (forall a: int, b: int :: a <= b ==> close(a) <= close(b))
  }

  /** The spread of a signal expires some trading days after the signal. */
  ghost predicate ExpiresAhead(market: Market, close: int -> int, sessions: int, desk: Desk) {
    forall x: Signal :: desk.plan(x).Spread? ==>
      exists day :: IsAdvance(market.day(x.ts), sessions, day) && desk.plan(x).expiry == close(day)
  }

  lemma ExpiryIsNotBeforeTheSignal(market: Market, close: int -> int, sessions: int, desk: Desk, x: Signal)
    requires ClosesFollow(market, close) && ExpiresAhead(market, close, sessions, desk)
    requires market.regular(x.ts) && desk.plan(x).Spread?
    ensures x.ts <= desk.plan(x).expiry
  {
    hide BusinessDays;
    var day :| IsAdvance(market.day(x.ts), sessions, day) && desk.plan(x).expiry == close(day);
    assert close(market.day(x.ts)) <= close(day);
  }

  ghost predicate CameIn(events: seq<Event>, symbol: string, ts: int) {
    exists i :: 0 <= i < |events| && events[i].symbol == symbol && events[i].row.ts == ts
  }

  /** What was stored for a symbol came in for it, in regular hours. */
  lemma {:induction false} StoredBarsCameIn(u: Setup, events: seq<Event>, symbol: string, ts: int)
    requires HasTime(After(u, events, symbol).history, ts)
    ensures u.market.regular(ts) && CameIn(events, symbol, ts)
  {
    hide Kept, Evaluate;
    if events != [] {
      var n := |events| - 1;
      var before, e := events[..n], events[n];
      var c := After(u, before, symbol);
      if HasTime(c.history, ts) {
        StoredBarsCameIn(u, before, symbol, ts);
        var i :| 0 <= i < |before| && before[i].symbol == symbol && before[i].row.ts == ts;
        assert events[i] == before[i];
      } else {
        HasTimeSnoc(c.history, e.row, ts);
        assert e.symbol == symbol && u.market.regular(e.row.ts);
        assert events[n].symbol == symbol && events[n].row.ts == ts;
      }
    }
  }

  lemma {:induction false} SignalIsOwn(stream: seq<Signal>, i: nat)
    requires i < |stream|
    ensures stream[i] in Own(stream, stream[i].symbol)
  {
    var n := |stream| - 1;
    if i < n {
      SignalIsOwn(stream[..n], i);
    }
  }

  /** Each signal of a run is on a bar of its symbol that came in, in regular hours. */
  lemma SignalsAreOnBars(u: Setup, events: seq<Event>, i: nat)
    requires i < |Stream(u, events)|
    ensures var x := Stream(u, events)[i]; u.market.regular(x.ts) && CameIn(events, x.symbol, x.ts)
  {
    hide Stream, After, Own, CameIn, HasTime;
    var x := Stream(u, events)[i];
    var own := Own(Stream(u, events), x.symbol);
    SignalIsOwn(Stream(u, events), i);
    var k :| 0 <= k < |own| && own[k] == x;
    RunKeepsInvariants(u, events, x.symbol);
    StoredBarsCameIn(u, events, x.symbol, x.ts);
  }

  /** On the signals of any replay and a frame that holds the replayed bars: when spreads expire ahead,
      every accepted trade is closed once, within its life, and no two trades of a symbol overlap. */
  lemma AheadTradesAreSound(u: Setup, events: seq<Event>, close: int -> int, sessions: int, desk: Desk,
                               ticks: seq<Tick>)
    requires ClosesFollow(u.market, close) && ExpiresAhead(u.market, close, sessions, desk)
    requires forall symbol, ts :: CameIn(events, symbol, ts) ==> HasTick(ticks, symbol, ts)
    ensures var r := Simulated(desk, ticks, Stream(u, events)); r.Some? ==> TradesAreSound(r.value)
  {
    hide Stream, Own, After, CameIn, HasTick, ClosesFollow, ExpiresAhead, TradesAreSound, Simulated, Spaced,
         InTimeOrder;
    var signals := Stream(u, events);
    forall symbol
      ensures InTimeOrder(Own(signals, symbol))
    {
      SignalsAreSpaced(u, events, symbol);
    }
    forall i | 0 <= i < |signals|
      ensures CanTrade(desk, ticks, signals[i])
    {
      SignalsAreOnBars(u, events, i);
      if desk.plan(signals[i]).Spread? {
        ExpiryIsNotBeforeTheSignal(u.market, close, sessions, desk, signals[i]);
      }
    }
    SimulatedTradesAreSound(desk, ticks, signals);
  }

  // ---------- Alternating signals find their symbols flat ----------

  /** Each open trade is what its symbol holds. */
  ghost predicate OpenIsHeld(signals: seq<Signal>, open: seq<OpenTrade>) {
    forall k :: 0 <= k < |open| ==>
      && IsEntry(open[k].entry.kind)
      && HoldingAfter(Own(signals, open[k].entry.symbol)) == SS.SideOf(open[k].entry)
  }

  lemma ExpiredOnlyRemoves(desk: Desk, ticks: seq<Tick>, b: Book, x: Signal)
    requires IsDict(ticks, b.open)
    ensures IsDict(ticks, Expired(desk, ticks, b, x).open)
    ensures forall t :: t in Expired(desk, ticks, b, x).open ==> t in b.open
  {
    hide LookupSpot, CloseTrade;
    var k := PlaceOf(b.open, x.symbol);
    if k < |b.open| {
      RemovedIsDict(ticks, b.open, k);
    }
  }

  /** After a signal the open trades of its symbol are an entry that was just accepted, or trades it did not close. */
  lemma OpenAfterSignal(desk: Desk, ticks: seq<Tick>, b: Book, x: Signal)
    requires IsDict(ticks, b.open) && OnSignal(desk, ticks, b, x).Some?
    ensures var open := OnSignal(desk, ticks, b, x).value.open;
            && IsDict(ticks, open)
            && forall t :: t in open ==>
                 if IsEntry(x.kind) && t.entry == x then true
                 else t in b.open && (t.entry.symbol == x.symbol ==> !Matches(t.entry, x))
  {
    hide LookupSpot, CloseTrade, Expired;
    if IsIndexed(ticks, x.symbol) {
      var e := Expired(desk, ticks, b, x);
      var k := PlaceOf(e.open, x.symbol);
      ExpiredOnlyRemoves(desk, ticks, b, x);
      if k < |e.open| {
        RemovedIsDict(ticks, e.open, k);
        PlaceIsUnique(ticks, e.open, k);
      }
    } else {
      NotIndexedIsNotOpen(ticks, b.open, x.symbol);
    }
  }

  lemma PlaceIsUnique(ticks: seq<Tick>, open: seq<OpenTrade>, k: nat)
    requires IsDict(ticks, open) && k < |open|
    ensures forall t :: t in open && t.entry.symbol == open[k].entry.symbol ==> t == open[k]
    ensures forall t :: t in Removed(open, k) ==> t in open && t.entry.symbol != open[k].entry.symbol
  {
    assert forall i :: 0 <= i < |Removed(open, k)| ==> Removed(open, k)[i] == open[if i < k then i else i + 1];
  }

  lemma NotIndexedIsNotOpen(ticks: seq<Tick>, open: seq<OpenTrade>, symbol: string)
    requires IsDict(ticks, open) && !IsIndexed(ticks, symbol)
    ensures forall t :: t in open ==> t.entry.symbol != symbol
  {
  }

  lemma HeldOneMore(before: seq<Signal>, x: Signal, open: seq<OpenTrade>, after: seq<OpenTrade>)
    requires OpenIsHeld(before, open) && NextHolding(HoldingAfter(Own(before, x.symbol)), x.kind) != Broken
    requires forall t :: t in after ==>
               if IsEntry(x.kind) && t.entry == x then true
               else t in open && (t.entry.symbol == x.symbol ==> !Matches(t.entry, x))
    ensures OpenIsHeld(before + [x], after)
  {
    hide HoldingAfter, Own;
    forall k | 0 <= k < |after|
      ensures IsEntry(after[k].entry.kind)
      ensures HoldingAfter(Own(before + [x], after[k].entry.symbol)) == SS.SideOf(after[k].entry)
    {
      var t := after[k];
      assert t in after;
      SS.HoldingOneMore(before, x, t.entry.symbol);
      if !(IsEntry(x.kind) && t.entry == x) {
        var m :| 0 <= m < |open| && open[m] == t;
      }
    }
  }

  lemma {:induction false} AlternatingOpenIsHeld(desk: Desk, ticks: seq<Tick>, signals: seq<Signal>)
    requires SS.Alternates(signals)
    ensures var b := OnSignals(desk, ticks, signals);
            b.Some? ==> IsDict(ticks, b.value.open) && OpenIsHeld(signals, b.value.open)
  {
    hide OnSignal, HoldingAfter, Own, IsDict, SS.Alternates;
    if signals == [] {
      NothingOpen(ticks);
    } else {
      var before, x := signals[..|signals| - 1], signals[|signals| - 1];
      assert signals == before + [x];
      SS.AlternatesOneMore(before, x);
      AlternatingOpenIsHeld(desk, ticks, before);
      var b := OnSignals(desk, ticks, before);
      if b.Some? && OnSignal(desk, ticks, b.value, x).Some? {
        OpenAfterSignal(desk, ticks, b.value, x);
        HeldOneMore(before, x, b.value.open, OnSignal(desk, ticks, b.value, x).value.open);
      }
    }
  }

  lemma NothingOpen(ticks: seq<Tick>)
    ensures IsDict(ticks, [])
  {
  }

  lemma {:induction false} PrefixAlternates(signals: seq<Signal>, i: nat)
    requires SS.Alternates(signals) && i <= |signals|
    ensures SS.Alternates(signals[..i])
    decreases |signals|
  {
    hide SS.Alternates;
    var n := |signals| - 1;
    if i <= n {
      assert signals == signals[..n] + [signals[n]];
      SS.AlternatesOneMore(signals[..n], signals[n]);
      PrefixAlternates(signals[..n], i);
      assert signals[..n][..i] == signals[..i];
    } else {
      assert signals[..i] == signals;
    }
  }

  /** In an alternating stream every entry finds its symbol flat. */
  lemma EntriesAreReachedFlat(desk: Desk, ticks: seq<Tick>, signals: seq<Signal>, i: nat)
    requires SS.Alternates(signals) && i < |signals| && IsEntry(signals[i].kind)
    requires IsIndexed(ticks, signals[i].symbol) && OnSignals(desk, ticks, signals[..i]).Some?
    ensures IsReachedFlat(desk, ticks, signals, i)
  {
    hide OnSignals, Expired, HoldingAfter, Own, SS.Alternates, IsIndexed;
    var before, x := signals[..i], signals[i];
    var b := OnSignals(desk, ticks, before).value;
    PrefixAlternates(signals, i);
    PrefixAlternates(signals, i + 1);
    assert signals[..i + 1] == before + [x];
    SS.AlternatesOneMore(before, x);
    AlternatingOpenIsHeld(desk, ticks, before);
    ExpiredOnlyRemoves(desk, ticks, b, x);
    FlatHasNoTrade(before, b.open, x.symbol);
    assert forall t :: t in Expired(desk, ticks, b, x).open ==> t.entry.symbol != x.symbol;
  }

  lemma FlatHasNoTrade(signals: seq<Signal>, open: seq<OpenTrade>, symbol: string)
    requires OpenIsHeld(signals, open) && HoldingAfter(Own(signals, symbol)) == Flat
    ensures forall t :: t in open ==> t.entry.symbol != symbol
  {
    hide HoldingAfter, Own;
  }

  /** On an alternating stream of symbols of the frame the simulation fails if and only if the legs of some entry do not
      parse. */
  lemma AlternatingFailsIff(desk: Desk, ticks: seq<Tick>, signals: seq<Signal>)
    requires SS.Alternates(signals)
    requires forall i :: 0 <= i < |signals| ==> IsIndexed(ticks, signals[i].symbol)
    ensures Simulated(desk, ticks, signals).None? <==>
            exists i :: 0 <= i < |signals| && IsEntry(signals[i].kind) && desk.plan(signals[i]) == Unparseable
  {
    hide OnSignals, Simulated, SS.Alternates, IsIndexed, IsReachedFlat;
    SimulationFailsIff(desk, ticks, signals);
    if i :| 0 <= i < |signals| && FailsAt(desk, ticks, signals, i) {
      ReachedIsEntry(desk, ticks, signals, i);
    }
    if i :| 0 <= i < |signals| && IsEntry(signals[i].kind) && desk.plan(signals[i]) == Unparseable {
      if OnSignals(desk, ticks, signals[..i]).Some? {
        EntriesAreReachedFlat(desk, ticks, signals, i);
        assert FailsAt(desk, ticks, signals, i);
      } else {
        FailureIsFinal(desk, ticks, signals, i);
        FailureShows(desk, ticks, signals);
      }
    }
  }

  lemma ReachedIsEntry(desk: Desk, ticks: seq<Tick>, signals: seq<Signal>, i: nat)
    requires i < |signals| && IsReachedFlat(desk, ticks, signals, i)
    ensures IsEntry(signals[i].kind)
  {
  }

  lemma FailureShows(desk: Desk, ticks: seq<Tick>, signals: seq<Signal>)
    requires OnSignals(desk, ticks, signals).None?
    ensures Simulated(desk, ticks, signals).None?
  {
  }

  // ---------- The whole backtest ----------

  /** The desk of the option backtest: spreads are planned from the signal and its local date. */
  function BacktestDesk(cfg: PlanConfig, dates: Dates, sigma: (string, int) -> real,
                        price: (real, int, int, real, seq<ParsedLeg>) -> real): Desk {
    Desk((x: Signal) => PlannedSpread(cfg, dates, x), sigma, price)
  }

  lemma DeskExpiresAhead(cfg: PlanConfig, market: Market, iso: int -> IsoDate, close: int -> int,
                         sigma: (string, int) -> real, price: (real, int, int, real, seq<ParsedLeg>) -> real)
    ensures var desk := BacktestDesk(cfg, Dates(market.day, iso, close), sigma, price);
            ExpiresAhead(market, close, cfg.directionalDays, desk)
  {
    hide PlannedSpread, IsAdvance, ClosedForm;
    var dates := Dates(market.day, iso, close);
    var desk := BacktestDesk(cfg, dates, sigma, price);
    forall x: Signal | desk.plan(x).Spread?
      ensures exists day ::
                IsAdvance(market.day(x.ts), cfg.directionalDays, day) && desk.plan(x).expiry == close(day)
    {
      PlannedSpreadOutcome(cfg, dates, x);
      ClosedFormAdvances(market.day(x.ts), cfg.directionalDays);
      assert desk.plan(x).expiry == close(ExpiryDay(dates, x, cfg.directionalDays));
    }
  }

  lemma StreamAlternates(u: Setup, events: seq<Event>)
    ensures SS.Alternates(Stream(u, events))
  {
    hide Stream, After, Own, HoldingAfter;
    forall symbol
      ensures HoldingAfter(Own(Stream(u, events), symbol)) != Broken
    {
      SignalsAlternate(u, events, symbol);
    }
  }

  lemma TickIsIndexed(ticks: seq<Tick>, symbol: string, ts: int)
    requires HasTick(ticks, symbol, ts)
    ensures IsIndexed(ticks, symbol)
  {
  }

  /** The option backtest of any replay over a frame that holds the replayed bars: it ends in an error if and only if
      some signal has a bad leg; and otherwise every accepted trade is closed once, within its life, and no two trades
      of a symbol overlap. */
  lemma BacktestTradesAreSound(
      u: Setup, events: seq<Event>, cfg: PlanConfig, iso: int -> IsoDate, close: int -> int, ticks: seq<Tick>,
      sigma: (string, int) -> real, price: (real, int, int, real, seq<ParsedLeg>) -> real)
    requires ClosesFollow(u.market, close)
    requires forall symbol, ts :: CameIn(events, symbol, ts) ==> HasTick(ticks, symbol, ts)
    ensures var desk := BacktestDesk(cfg, Dates(u.market.day, iso, close), sigma, price);
            var signals := Stream(u, events);
            var r := Simulated(desk, ticks, signals);
            && (r.None? <==> exists i :: 0 <= i < |signals| && HasBadLeg(cfg, signals[i]))
            && (r.Some? ==> TradesAreSound(r.value))
  {
    hide Stream, Simulated, CameIn, HasTick, IsIndexed, ClosesFollow, ExpiresAhead, SS.Alternates, TradesAreSound,
         PlannedSpread, HasBadLeg;
    var dates := Dates(u.market.day, iso, close);
    var desk, signals := BacktestDesk(cfg, dates, sigma, price), Stream(u, events);
    DeskExpiresAhead(cfg, u.market, iso, close, sigma, price);
    AheadTradesAreSound(u, events, close, cfg.directionalDays, desk, ticks);
    StreamAlternates(u, events);
    forall i | 0 <= i < |signals|
      ensures IsIndexed(ticks, signals[i].symbol)
      ensures IsEntry(signals[i].kind) && desk.plan(signals[i]) == Unparseable <==> HasBadLeg(cfg, signals[i])
    {
      SignalsAreOnBars(u, events, i);
      TickIsIndexed(ticks, signals[i].symbol, signals[i].ts);
      PlannedSpreadOutcome(cfg, dates, signals[i]);
      BadLegsAreOfEntries(cfg, signals[i]);
    }
    AlternatingFailsIff(desk, ticks, signals);
  }

  lemma BadLegsAreOfEntries(cfg: PlanConfig, x: Signal)
    ensures HasBadLeg(cfg, x) ==> IsEntry(x.kind)
  {
  }

  lemma {:induction false} EntriesCarryTargets(u: Setup, events: seq<Event>, i: nat)
    requires i < |Stream(u, events)|
    ensures IsEntry(Stream(u, events)[i].kind) ==> Stream(u, events)[i].target.Some?
  {
    hide Kept, Decide, After;
    if events != [] {
      var before, e := events[..|events| - 1], events[|events| - 1];
      if i < |Stream(u, before)| {
        EntriesCarryTargets(u, before, i);
      } else {
        var c := After(u, before, e.symbol);
        var frame := Kept(c.history + [e.row], u.cfg.maxBarsKept);
        EntryCarriesTarget(u, Rolled(c.pos, u.market.day(frame[|frame| - 1].ts)), e.symbol, frame);
      }
    }
  }

  lemma EntryCarriesTarget(u: Setup, pos: Position, symbol: string, frame: Frame)
    requires frame != []
    ensures var x := Decide(u, pos, symbol, frame).signal;
            x.Some? && IsEntry(x.value.kind) ==> x.value.target.Some?
  {
    hide LeavesLong, LeavesShort, EntersLong, EntersShort, CoolingDown, MarksRange, LongTarget, ShortTarget;
  }

  /** Without inversion, and with symbols that can be read, the error is a short signal with a negative target. */
  lemma NegativeTargetsEndTheBacktest(
      u: Setup, events: seq<Event>, cfg: PlanConfig, iso: int -> IsoDate, close: int -> int, ticks: seq<Tick>,
      sigma: (string, int) -> real, price: (real, int, int, real, seq<ParsedLeg>) -> real)
    requires ClosesFollow(u.market, close)
    requires forall symbol, ts :: CameIn(events, symbol, ts) ==> HasTick(ticks, symbol, ts)
    requires !cfg.invert && forall i :: 0 <= i < |Stream(u, events)| ==> IsReadable(Stream(u, events)[i].symbol)
    ensures var signals := Stream(u, events);
            Simulated(BacktestDesk(cfg, Dates(u.market.day, iso, close), sigma, price), ticks, signals).None? <==>
            exists i :: 0 <= i < |signals| && signals[i].kind == TrendShort
                     && signals[i].target.Some? && signals[i].target.value < 0.0
  {
    hide Stream, Simulated, CameIn, HasTick, ClosesFollow, IsReadable, PlannedSpread;
    var signals := Stream(u, events);
    BacktestTradesAreSound(u, events, cfg, iso, close, ticks, sigma, price);
    forall i | 0 <= i < |signals|
      ensures HasBadLeg(cfg, signals[i]) <==>
              signals[i].kind == TrendShort && signals[i].target.Some? && signals[i].target.value < 0.0
    {
      EntriesCarryTargets(u, events, i);
    }
  }
}
