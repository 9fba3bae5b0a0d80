/** What the simulator's trades are worth: how each one was entered, and at which price, instant and value it ended. */
module OptionValues {
  import opened OptionPlans
  import opened Options
  import opened OptionSimulator
  import opened SignalEngine
  import opened SignalPipeline

  /** A trade is the plan of an entry signal, valued at the signal's price and time, and that value is positive. */
  ghost predicate IsEntered(desk: Desk, signals: seq<Signal>, t: OpenTrade) {
    && (exists i :: 0 <= i < |signals| && signals[i] == t.entry)
    && (t.entry.kind == TrendLong || t.entry.kind == TrendShort)
    && desk.plan(t.entry) == Spread(t.structure, t.legs, t.expiry)
    && t.sigma == desk.sigma(t.entry.symbol, t.entry.ts)
    && t.entryValue == desk.price(t.entry.price, t.entry.ts, t.expiry, t.sigma, t.legs)
    && t.entryValue > 0.0
  }

  /** The close of a newest row of the symbol up to an instant. */
  ghost predicate IsNewestClose(ticks: seq<Tick>, symbol: string, ts: int, close: real) {
    exists i :: 0 <= i < |ticks|
      && ticks[i].symbol == symbol && ticks[i].ts <= ts && ticks[i].close == close
      && forall j :: 0 <= j < |ticks| && ticks[j].symbol == symbol && ticks[j].ts <= ts ==> ticks[j].ts <= ticks[i].ts
  }

  ghost predicate IsEndOfData(ticks: seq<Tick>, ts: int) {
    && (exists i :: 0 <= i < |ticks| && ticks[i].ts == ts)
    && (forall i :: 0 <= i < |ticks| ==> ticks[i].ts <= ts)
  }

  /** The signal closes a trade of its symbol and side, at its own time and price. */
  predicate IsExitOf(x: Signal, t: OpenTrade, ts: int, price: real) {
    && x.symbol == t.entry.symbol && x.ts == ts && x.price == price
    && x.kind == if t.entry.kind == TrendLong then ExitLong else ExitShort
  }

  /** A trade ends on an exit signal of its side before it expires, or at its expiry, or with the data when that comes
      first; its last value is that of its legs at that instant and the price there. */
  ghost predicate IsEnded(desk: Desk, ticks: seq<Tick>, signals: seq<Signal>, c: ClosedTrade) {
    && c.exitValue == desk.price(c.exitSpot, c.exitTs, c.trade.expiry, c.trade.sigma, c.trade.legs)
    && match c.reason
       case SignalExit =>
         && c.exitTs < c.trade.expiry
         && exists i :: 0 <= i < |signals| && IsExitOf(signals[i], c.trade, c.exitTs, c.exitSpot)
       case Expiry =>
         c.exitTs == c.trade.expiry && IsNewestClose(ticks, c.trade.entry.symbol, c.exitTs, c.exitSpot)
       case DatasetEnd =>
         && c.exitTs < c.trade.expiry && IsEndOfData(ticks, c.exitTs)
         && IsNewestClose(ticks, c.trade.entry.symbol, c.exitTs, c.exitSpot)
  }

  ghost predicate IsValued(desk: Desk, ticks: seq<Tick>, signals: seq<Signal>, b: Book) {
    && IsDict(ticks, b.open)
    && (forall i :: 0 <= i < |b.open| ==> IsEntered(desk, signals, b.open[i]))
    && (forall i :: 0 <= i < |b.closed| ==>
          IsEntered(desk, signals, b.closed[i].trade) && IsEnded(desk, ticks, signals, b.closed[i]))
  }

  // ---------- Keeping values ----------

  lemma LookupIsNewest(ticks: seq<Tick>, symbol: string, ts: int)
    ensures LookupSpot(ticks, symbol, ts).Some? ==>
              IsNewestClose(ticks, symbol, ts, LookupSpot(ticks, symbol, ts).value)
  {
    var row := LastRowUpTo(ticks, symbol, ts);
    if row.Some? {
      var i :| 0 <= i < |ticks| && ticks[i] == row.value;
    }
  }

  lemma LeaveIsValued(desk: Desk, ticks: seq<Tick>, signals: seq<Signal>, b: Book, k: nat, ts: int,
                      spot: Option<real>, reason: Reason)
    requires IsValued(desk, ticks, signals, b) && k < |b.open|
    requires spot.Some? ==>
               var trade := b.open[k];
               var value := desk.price(spot.value, ts, trade.expiry, trade.sigma, trade.legs);
               IsEnded(desk, ticks, signals, ClosedTrade(trade, ts, spot.value, value, reason))
    ensures IsValued(desk, ticks, signals, Leave(desk, b, k, ts, spot, reason))
  {
    hide IsEnded, IsEntered, IsDict;
    RemovedIsDict(ticks, b.open, k);
    RemovedFrom(b.open, k);
  }

  lemma MoreSignals(desk: Desk, ticks: seq<Tick>, before: seq<Signal>, x: Signal, b: Book)
    requires IsValued(desk, ticks, before, b)
    ensures IsValued(desk, ticks, before + [x], b)
  {
    forall t | IsEntered(desk, before, t)
      ensures IsEntered(desk, before + [x], t)
    {
      var i :| 0 <= i < |before| && before[i] == t.entry;
      assert (before + [x])[i] == t.entry;
    }
    forall c | IsEnded(desk, ticks, before, c)
      ensures IsEnded(desk, ticks, before + [x], c)
    {
      if c.reason == SignalExit {
        var i :| 0 <= i < |before| && IsExitOf(before[i], c.trade, c.exitTs, c.exitSpot);
        assert IsExitOf((before + [x])[i], c.trade, c.exitTs, c.exitSpot);
      }
    }
    hide IsEntered, IsEnded, IsDict;
  }

  lemma ExpiredIsValued(desk: Desk, ticks: seq<Tick>, signals: seq<Signal>, b: Book, x: Signal)
    requires IsValued(desk, ticks, signals, b)
    ensures var e := Expired(desk, ticks, b, x);
            && IsValued(desk, ticks, signals, e)
            && forall i :: 0 <= i < |e.open| && e.open[i].entry.symbol == x.symbol ==> x.ts < e.open[i].expiry
  {
    hide IsNewestClose, LookupSpot, Leave, IsEntered, IsValued;
    var k := PlaceOf(b.open, x.symbol);
    if k < |b.open| && x.ts >= b.open[k].expiry {
      var trade := b.open[k];
      var spot := LookupSpot(ticks, x.symbol, trade.expiry);
      LookupIsNewest(ticks, x.symbol, trade.expiry);
      LeaveIsValued(desk, ticks, signals, b, k, trade.expiry, spot, Expiry);
      LeaveRemoves(desk, b, k, trade.expiry, spot, Expiry);
      ValuedIsDict(desk, ticks, signals, b);
      OneOfASymbol(ticks, b.open, k);
    } else {
      ValuedIsDict(desk, ticks, signals, b);
      if k < |b.open| {
        OneOfASymbol(ticks, b.open, k);
      }
    }
  }

  lemma ValuedIsDict(desk: Desk, ticks: seq<Tick>, signals: seq<Signal>, b: Book)
    requires IsValued(desk, ticks, signals, b)
    ensures IsDict(ticks, b.open)
  {
  }

  lemma OneOfASymbol(ticks: seq<Tick>, open: seq<OpenTrade>, k: nat)
    requires IsDict(ticks, open) && k < |open|
    ensures forall i :: 0 <= i < |open| && open[i].entry.symbol == open[k].entry.symbol ==> i == k
    ensures forall i :: 0 <= i < |Removed(open, k)| ==> Removed(open, k)[i].entry.symbol != open[k].entry.symbol
  {
    RemovedFrom(open, k);
  }

  lemma AcceptIsValued(desk: Desk, ticks: seq<Tick>, signals: seq<Signal>, b: Book, t: OpenTrade)
    requires IsValued(desk, ticks, signals, b) && IsEntered(desk, signals, t)
    requires IsIndexed(ticks, t.entry.symbol) && PlaceOf(b.open, t.entry.symbol) == |b.open|
    ensures IsValued(desk, ticks, signals, b.(open := b.open + [t], accepted := b.accepted + [t]))
  {
    hide IsEntered, IsEnded, IsIndexed;
  }

  lemma SignalIsValued(desk: Desk, ticks: seq<Tick>, before: seq<Signal>, b: Book, x: Signal)
    requires IsValued(desk, ticks, before, b)
    ensures var after := OnSignal(desk, ticks, b, x);
            after.Some? ==> IsValued(desk, ticks, before + [x], after.value)
  {
    hide IsNewestClose, LookupSpot, Leave, IsValued, IsDict, IsIndexed, Expired;
    var signals := before + [x];
    assert signals[|before|] == x;
    MoreSignals(desk, ticks, before, x, b);
    if IsIndexed(ticks, x.symbol) && OnSignal(desk, ticks, b, x).Some? {
      var e := Expired(desk, ticks, b, x);
      ExpiredIsValued(desk, ticks, signals, b, x);
      var k := PlaceOf(e.open, x.symbol);
      if x.kind == TrendLong || x.kind == TrendShort {
        if k == |e.open| && desk.plan(x).Spread? && TradeFor(desk, x, desk.plan(x)).entryValue > 0.0 {
          AcceptIsValued(desk, ticks, signals, e, TradeFor(desk, x, desk.plan(x)));
        }
      } else if k < |e.open| && Matches(e.open[k].entry, x) {
        OpenIsEntered(desk, ticks, signals, e, k);
        assert IsExitOf(signals[|before|], e.open[k], x.ts, x.price);
        LeaveIsValued(desk, ticks, signals, e, k, x.ts, Some(x.price), SignalExit);
      }
    }
  }

  lemma OpenIsEntered(desk: Desk, ticks: seq<Tick>, signals: seq<Signal>, b: Book, k: nat)
    requires IsValued(desk, ticks, signals, b) && k < |b.open|
    ensures IsEntered(desk, signals, b.open[k])
  {
  }

  lemma {:induction false} SignalsAreValued(desk: Desk, ticks: seq<Tick>, signals: seq<Signal>)
    ensures var b := OnSignals(desk, ticks, signals); b.Some? ==> IsValued(desk, ticks, signals, b.value)
  {
    hide OnSignal, IsValued;
    if signals == [] {
      NothingIsValued(desk, ticks);
    } else {
      var before, x := signals[..|signals| - 1], signals[|signals| - 1];
      SignalsAreValued(desk, ticks, before);
      assert signals == before + [x];
      if OnSignals(desk, ticks, before).Some? {
        SignalIsValued(desk, ticks, before, OnSignals(desk, ticks, before).value, x);
      }
    }
  }

  lemma NothingIsValued(desk: Desk, ticks: seq<Tick>)
    ensures IsValued(desk, ticks, [], EMPTY_BOOK)
  {
  }

  lemma LastIsEnd(ticks: seq<Tick>, symbol: string)
    requires IsIndexed(ticks, symbol)
    ensures IsEndOfData(ticks, LastTs(ticks))
  {
  }

  lemma {:induction false} SweepIsValued(desk: Desk, ticks: seq<Tick>, signals: seq<Signal>, b: Book)
    requires IsValued(desk, ticks, signals, b)
    ensures IsValued(desk, ticks, signals, Swept(desk, ticks, b))
    decreases |b.open|
  {
    hide IsNewestClose, LookupSpot, Leave, IsIndexed, IsEndOfData, IsValued, IsDict, IsEntered;
    if b.open != [] {
      var trade, last := b.open[0], LastTs(ticks);
      var ts := if trade.expiry <= last then trade.expiry else last;
      var spot := LookupSpot(ticks, trade.entry.symbol, ts);
      var reason := if trade.expiry <= last then Expiry else DatasetEnd;
      LookupIsNewest(ticks, trade.entry.symbol, ts);
      ValuedIsDict(desk, ticks, signals, b);
      IndexedIn(ticks, b.open, 0);
      LastIsEnd(ticks, trade.entry.symbol);
      LeaveIsValued(desk, ticks, signals, b, 0, ts, spot, reason);
      LeaveRemoves(desk, b, 0, ts, spot, reason);
      RemovedFrom(b.open, 0);
      SweepIsValued(desk, ticks, signals, SweepOne(desk, ticks, b));
    }
  }

  lemma IndexedIn(ticks: seq<Tick>, open: seq<OpenTrade>, k: nat)
    requires IsDict(ticks, open) && k < |open|
    ensures IsIndexed(ticks, open[k].entry.symbol)
  {
  }

  /** Every closed trade of a simulation was entered on a signal at a positive value, and ended on an exit signal, at
      its expiry, or with the data, at the value its legs had then. */
  lemma TradesAreValued(desk: Desk, ticks: seq<Tick>, signals: seq<Signal>)
    ensures var r := Simulated(desk, ticks, signals);
            r.Some? ==> forall i :: 0 <= i < |r.value.closed| ==>
              && IsEntered(desk, signals, r.value.closed[i].trade)
              && IsEnded(desk, ticks, signals, r.value.closed[i])
  {
    hide OnSignals, Swept, IsEntered, IsEnded, IsDict;
    SignalsAreValued(desk, ticks, signals);
    if OnSignals(desk, ticks, signals).Some? {
      SweepIsValued(desk, ticks, signals, OnSignals(desk, ticks, signals).value);
    }
  }

  // ---------- Signals are acted on ----------

  ghost predicate HasOpen(b: Book, symbol: string) {
    exists i :: 0 <= i < |b.open| && b.open[i].entry.symbol == symbol
  }

  /** After an exit signal no trade of its symbol and side is open, and after an entry signal of a symbol of the frame
      that plans a spread of positive value its symbol has an open trade. */
  lemma SignalsAreActedOn(desk: Desk, ticks: seq<Tick>, before: seq<Signal>, x: Signal)
    requires OnSignals(desk, ticks, before + [x]).Some?
    ensures var b := OnSignals(desk, ticks, before + [x]).value;
            && (forall i :: 0 <= i < |b.open| ==> !IsExitOf(x, b.open[i], x.ts, x.price))
            && (forall i :: 0 <= i < |b.open| && b.open[i].entry.symbol == x.symbol ==>
                  b.open[i].entry == x || x.ts < b.open[i].expiry)
            && ((exists j :: 0 <= j < |ticks| && ticks[j].symbol == x.symbol)
                && (x.kind == TrendLong || x.kind == TrendShort) && desk.plan(x).Spread?
                && desk.price(x.price, x.ts, desk.plan(x).expiry, desk.sigma(x.symbol, x.ts), desk.plan(x).legs) > 0.0
                ==> HasOpen(b, x.symbol))
  {
    hide LookupSpot, Leave, Expired, IsValued, IsIndexed, IsDict;
    var signals := before + [x];
    assert signals[..|before|] == before;
    var b := OnSignals(desk, ticks, before).value;
    SignalsAreValued(desk, ticks, before);
    if IsIndexed(ticks, x.symbol) {
      var e := Expired(desk, ticks, b, x);
      ExpiredIsValued(desk, ticks, before, b, x);
      ValuedIsDict(desk, ticks, before, e);
      var k := PlaceOf(e.open, x.symbol);
      if k < |e.open| {
        OneOfASymbol(ticks, e.open, k);
        OpenIsEntered(desk, ticks, before, e, k);
        LeaveRemoves(desk, e, k, x.ts, Some(x.price), SignalExit);
        assert HasOpen(e, x.symbol);
      } else if (x.kind == TrendLong || x.kind == TrendShort) && desk.plan(x).Spread? {
        var trade := TradeFor(desk, x, desk.plan(x));
        assert (e.open + [trade])[|e.open|].entry.symbol == x.symbol;
      }
    } else {
      ValuedIsDict(desk, ticks, before, b);
      UnknownIsNotOpen(ticks, b.open, x.symbol);
    }
  }

  lemma UnknownIsNotOpen(ticks: seq<Tick>, open: seq<OpenTrade>, symbol: string)
    requires IsDict(ticks, open) && !IsIndexed(ticks, symbol)
    ensures forall i :: 0 <= i < |open| ==> open[i].entry.symbol != symbol
    ensures forall j :: 0 <= j < |ticks| ==> ticks[j].symbol != symbol
  {
  }
}
