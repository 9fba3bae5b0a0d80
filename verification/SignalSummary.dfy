/** The summary of a signal backtest: entries and exits of each symbol matched into closed trades. */
module SignalSummary {
  import opened SignalEngine
  import opened SignalPipeline
  import opened Sums

  datatype Trade = Trade(entry: Signal, exit: Signal) {
    function PnlPoints(): real {
      if entry.kind == TrendLong then exit.price - entry.price else entry.price - exit.price
    }

    function PnlPct(): real {
      PnlPoints() / entry.price
    }
  }

  datatype Tally = Tally(pending: map<string, Signal>, closed: seq<Trade>, entries: nat, ranges: nat)

  /** One signal: an entry replaces the pending one, and an exit closes a pending entry of its own side. */
  function Matched(t: Tally, x: Signal): Tally {
    match x.kind
    case RangeZone => t.(ranges := t.ranges + 1)
    case TrendLong => t.(entries := t.entries + 1, pending := t.pending[x.symbol := x])
    case TrendShort => t.(entries := t.entries + 1, pending := t.pending[x.symbol := x])
    case _ =>
      if x.symbol in t.pending && Matches(t.pending[x.symbol], x)
      then t.(closed := t.closed + [Trade(t.pending[x.symbol], x)], pending := t.pending - {x.symbol})
      else t
  }

  function Matching(signals: seq<Signal>): Tally {
    if signals == [] then Tally(map[], [], 0, 0)
    else Matched(Matching(signals[..|signals| - 1]), signals[|signals| - 1])
  }

  function Wins(trades: seq<Trade>): nat {
    if trades == [] then 0
    else Wins(trades[..|trades| - 1]) + (if trades[|trades| - 1].PnlPoints() > 0.0 then 1 else 0)
  }

  function Losses(trades: seq<Trade>): nat {
    if trades == [] then 0
    else Losses(trades[..|trades| - 1]) + (if trades[|trades| - 1].PnlPoints() < 0.0 then 1 else 0)
  }

  function Flats(trades: seq<Trade>): nat {
    if trades == [] then 0
    else Flats(trades[..|trades| - 1]) + (if trades[|trades| - 1].PnlPoints() == 0.0 then 1 else 0)
  }

  function Points(): Trade -> real {
    (trade: Trade) => trade.PnlPoints()
  }

  function Percents(): Trade -> real {
    (trade: Trade) => trade.PnlPct()
  }

  /** The mean of a figure over the trades, and zero without trades. */
  function Mean(f: Trade -> real, trades: seq<Trade>): real {
    if trades == [] then 0.0 else Sum(f, trades) / |trades| as real
  }

  datatype Summary = Summary(
    totalBars: int, totalSignals: nat, entries: nat, ranges: nat, closed: nat,
    wins: nat, losses: nat, flats: nat, pending: nat, netPoints: real, avgPoints: real, avgPct: real,
    uniqueSymbols: int)

  method SummarizeSignals(signals: seq<Signal>, totalBars: int, uniqueSymbols: int) returns (s: Summary)
    ensures var t := Matching(signals);
            s == Summary(totalBars, |signals|, t.entries, t.ranges, |t.closed|,
                         Wins(t.closed), Losses(t.closed), Flats(t.closed), |t.pending|, Sum(Points(), t.closed),
                         Mean(Points(), t.closed), Mean(Percents(), t.closed), uniqueSymbols)
  {
    var pending: map<string, Signal> := map[];
    var closed: seq<Trade> := [];
    var entries, ranges := 0, 0;
    for i := 0 to |signals|
      invariant Tally(pending, closed, entries, ranges) == Matching(signals[..i])
    {
      var x := signals[i];
      assert signals[..i + 1][..i] == signals[..i];
      if x.kind == RangeZone {
        ranges := ranges + 1;
        continue;
      }
      if x.kind == TrendLong {
        entries := entries + 1;
        pending := pending[x.symbol := x];
        continue;
      }
      if x.kind == TrendShort {
        entries := entries + 1;
        pending := pending[x.symbol := x];
        continue;
      }
      if x.symbol !in pending {
        continue;
      }
      var entry := pending[x.symbol];
      if entry.kind == TrendLong && x.kind == ExitLong {
        closed := closed + [Trade(entry, x)];
        pending := pending - {x.symbol};
        continue;
      }
      if entry.kind == TrendShort && x.kind == ExitShort {
        closed := closed + [Trade(entry, x)];
        pending := pending - {x.symbol};
      }
    }
    assert signals[..|signals|] == signals;
    var net := Sum(Points(), closed);
    var avgPoints := if closed != [] then net / |closed| as real else 0.0;
    var avgPct := if closed != [] then Sum(Percents(), closed) / |closed| as real else 0.0;
    s := Summary(totalBars, |signals|, entries, ranges, |closed|, Wins(closed), Losses(closed), Flats(closed),
                 |pending|, net, avgPoints, avgPct, uniqueSymbols);
  }

  // ---------- Any stream ----------

  predicate Overwrites(t: Tally, x: Signal) {
    (x.kind == TrendLong || x.kind == TrendShort) && x.symbol in t.pending
  }

  predicate IsIgnored(t: Tally, x: Signal) {
    IsExit(x.kind) && !(x.symbol in t.pending && Matches(t.pending[x.symbol], x))
  }

  /** Entries that replaced a pending one. */
  function Overwritten(signals: seq<Signal>): nat {
    if signals == [] then 0
    else
      var before, x := signals[..|signals| - 1], signals[|signals| - 1];
      Overwritten(before) + (if Overwrites(Matching(before), x) then 1 else 0)
  }

  /** Exits without a pending entry of their side. */
  function Ignored(signals: seq<Signal>): nat {
    if signals == [] then 0
    else
      var before, x := signals[..|signals| - 1], signals[|signals| - 1];
      Ignored(before) + (if IsIgnored(Matching(before), x) then 1 else 0)
  }

  lemma SizeOfUpdate<K, V>(m: map<K, V>, k: K, v: V)
    ensures |m[k := v]| == |m| + if k in m then 0 else 1
  {
    assert m[k := v].Keys == m.Keys + {k};
  }

  lemma SizeOfRemoval<K, V>(m: map<K, V>, k: K)
    requires k in m
    ensures |m - {k}| == |m| - 1
  {
    assert (m - {k}).Keys == m.Keys - {k};
  }

  lemma OneSignalIsAccountedFor(t: Tally, x: Signal)
    ensures var n := Matched(t, x);
            && n.entries - t.entries == |n.closed| + |n.pending| - |t.closed| - |t.pending|
                                        + (if Overwrites(t, x) then 1 else 0)
            && n.entries + n.ranges + |n.closed| + (if IsIgnored(t, x) then 1 else 0)
               == t.entries + t.ranges + |t.closed| + 1
  {
    SizeOfUpdate(t.pending, x.symbol, x);
    if x.symbol in t.pending {
      SizeOfRemoval(t.pending, x.symbol);
    }
  }

  /** Every entry is closed, pending or overwritten; every signal is an entry, a range signal, a closing exit or an
      ignored one. */
  lemma {:induction false} EverySignalIsAccountedFor(signals: seq<Signal>)
    ensures var t := Matching(signals);
            && t.entries == |t.closed| + |t.pending| + Overwritten(signals)
            && |signals| == t.entries + t.ranges + |t.closed| + Ignored(signals)
  {
    hide Matched, Overwrites, IsIgnored;
    if signals != [] {
      var before, x := signals[..|signals| - 1], signals[|signals| - 1];
      EverySignalIsAccountedFor(before);
      OneSignalIsAccountedFor(Matching(before), x);
    }
  }

  lemma {:induction false} EveryTradeIsAWinALossOrFlat(trades: seq<Trade>)
    ensures Wins(trades) + Losses(trades) + Flats(trades) == |trades|
  {
    if trades != [] {
      EveryTradeIsAWinALossOrFlat(trades[..|trades| - 1]);
    }
  }

  /** A long trade gains when it is left above its entry, a short one when it is left below. */
  predicate IsGain(trade: Trade) {
    if trade.entry.kind == TrendLong then trade.exit.price > trade.entry.price
    else trade.exit.price < trade.entry.price
  }

  predicate IsLoss(trade: Trade) {
    if trade.entry.kind == TrendLong then trade.exit.price < trade.entry.price
    else trade.exit.price > trade.entry.price
  }

  predicate IsFlat(trade: Trade) {
    trade.exit.price == trade.entry.price
  }

  ghost function Places(trades: seq<Trade>, f: Trade -> bool): set<int> {
    set i | 0 <= i < |trades| && f(trades[i])
  }

  lemma PlacesOneMore(trades: seq<Trade>, f: Trade -> bool)
    requires trades != []
    ensures var n := |trades| - 1;
            |Places(trades, f)| == |Places(trades[..n], f)| + if f(trades[n]) then 1 else 0
  {
    var n := |trades| - 1;
    assert forall i :: 0 <= i < n ==> trades[..n][i] == trades[i];
    assert Places(trades, f) == Places(trades[..n], f) + if f(trades[n]) then {n} else {};
  }

  /** Wins, losses and flats are counted by where the price went, whatever the side. */
  lemma {:induction false} CountsFollowThePrice(trades: seq<Trade>)
    ensures Wins(trades) == |Places(trades, IsGain)|
    ensures Losses(trades) == |Places(trades, IsLoss)|
    ensures Flats(trades) == |Places(trades, IsFlat)|
  {
    if trades != [] {
      CountsFollowThePrice(trades[..|trades| - 1]);
      PlacesOneMore(trades, IsGain);
      PlacesOneMore(trades, IsLoss);
      PlacesOneMore(trades, IsFlat);
    } else {
      assert Places(trades, IsGain) == {} && Places(trades, IsLoss) == {};
      assert Places(trades, IsFlat) == {};
    }
  }

  /** A mean times the number of trades is their sum; without trades it is zero. */
  lemma MeanTimesTrades(f: Trade -> real, trades: seq<Trade>)
    ensures Mean(f, trades) * |trades| as real == Sum(f, trades)
    ensures trades == [] ==> Mean(f, trades) == 0.0
  {
    if trades == [] {
      SumOfNothing(f);
    }
  }

  /** The percentage of a trade is its points over its entry price. */
  lemma PercentOfEntry(trade: Trade)
    ensures trade.PnlPct() * trade.entry.price == trade.PnlPoints()
  {
  }

  // ---------- Alternating streams ----------

  /** The directional signals of every symbol alternate. */
  ghost predicate Alternates(signals: seq<Signal>) {
    forall symbol :: HoldingAfter(Own(signals, symbol)) != Broken
  }

  function SideOf(entry: Signal): Holding {
    if entry.kind == TrendLong then Holds(Long) else Holds(Short)
  }

  /** The pending entries are what the symbols hold. */
  ghost predicate PendingIsHeld(signals: seq<Signal>, pending: map<string, Signal>) {
    forall symbol ::
      && HoldingAfter(Own(signals, symbol)) == (if symbol in pending then SideOf(pending[symbol]) else Flat)
      && (symbol in pending ==> pending[symbol].kind == TrendLong || pending[symbol].kind == TrendShort)
  }

  lemma HoldingOneMore(before: seq<Signal>, x: Signal, symbol: string)
    ensures var h := HoldingAfter(Own(before, symbol));
            HoldingAfter(Own(before + [x], symbol)) == if x.symbol == symbol then NextHolding(h, x.kind) else h
  {
    OwnSnoc(before, x, symbol);
    var own := Own(before, symbol);
    assert (own + [x])[..|own|] == own;
    assert own + [] == own;
  }

  lemma HeldOneMore(before: seq<Signal>, x: Signal, t: Tally)
    requires PendingIsHeld(before, t.pending)
    requires NextHolding(HoldingAfter(Own(before, x.symbol)), x.kind) != Broken
    ensures PendingIsHeld(before + [x], Matched(t, x).pending)
  {
    hide HoldingAfter, Own;
    forall symbol {
      HoldingOneMore(before, x, symbol);
    }
  }

  lemma AlternatesOneMore(before: seq<Signal>, x: Signal)
    ensures Alternates(before + [x])
       <==> Alternates(before) && NextHolding(HoldingAfter(Own(before, x.symbol)), x.kind) != Broken
  {
    hide HoldingAfter, Own;
    forall symbol {
      HoldingOneMore(before, x, symbol);
    }
    if Alternates(before + [x]) {
      forall symbol
        ensures HoldingAfter(Own(before, symbol)) != Broken
      {
        assert HoldingAfter(Own(before + [x], symbol)) != Broken;
      }
      assert HoldingAfter(Own(before + [x], x.symbol)) != Broken;
    }
  }

  /** Nothing is overwritten or ignored exactly when the directional signals of every symbol alternate. */
  lemma {:induction false} AlternatingMeansNothingIsLost(signals: seq<Signal>)
    ensures Alternates(signals) <==> Overwritten(signals) == 0 && Ignored(signals) == 0
    ensures Alternates(signals) ==> PendingIsHeld(signals, Matching(signals).pending)
  {
    hide HoldingAfter, Own, Alternates;
    if signals == [] {
      NothingHeld();
    } else {
      var before, x := signals[..|signals| - 1], signals[|signals| - 1];
      AlternatingMeansNothingIsLost(before);
      assert signals == before + [x];
      AlternatesOneMore(before, x);
      if Alternates(signals) {
        HeldOneMore(before, x, Matching(before));
      }
    }
  }

  lemma NothingHeld()
    ensures Alternates([]) && PendingIsHeld([], map[])
  {
  }

  predicate IsRoundTrip(trade: Trade) {
    && trade.entry.symbol == trade.exit.symbol
    && Matches(trade.entry, trade.exit)
    && trade.entry.ts <= trade.exit.ts
  }

  /** Pending entries are signals of their symbol, and closed trades are round trips. */
  ghost predicate IsForward(signals: seq<Signal>, t: Tally) {
    && (forall symbol :: symbol in t.pending ==>
          t.pending[symbol].symbol == symbol && t.pending[symbol] in Own(signals, symbol))
    && (forall i :: 0 <= i < |t.closed| ==> IsRoundTrip(t.closed[i]))
  }

  lemma ForwardOneMore(before: seq<Signal>, x: Signal, t: Tally)
    requires IsForward(before, t) && InTimeOrder(Own(before + [x], x.symbol))
    ensures IsForward(before + [x], Matched(t, x))
  {
    hide InTimeOrder, Own;
    forall symbol {
      OwnSnoc(before, x, symbol);
    }
    var own := Own(before, x.symbol);
    if IsExit(x.kind) && x.symbol in t.pending {
      ExitIsNotEarlier(own, t.pending[x.symbol], x);
    }
  }

  lemma ExitIsNotEarlier(own: seq<Signal>, entry: Signal, exit: Signal)
    requires entry in own && InTimeOrder(own + [exit])
    ensures entry.ts <= exit.ts
  {
    var k :| 0 <= k < |own| && own[k] == entry;
    assert (own + [exit])[k].ts <= (own + [exit])[|own|].ts;
  }

  /** A closed trade joins an entry and an exit of one symbol; in a stream in time order the exit is not earlier. */
  lemma {:induction false} TradesGoForward(signals: seq<Signal>)
    requires forall symbol :: InTimeOrder(Own(signals, symbol))
    ensures IsForward(signals, Matching(signals))
  {
    hide Matched, InTimeOrder, Own;
    if signals == [] {
      NothingIsForward();
    } else {
      var before, x := signals[..|signals| - 1], signals[|signals| - 1];
      assert signals == before + [x];
      forall symbol
        ensures InTimeOrder(Own(before, symbol))
      {
        OwnSnoc(before, x, symbol);
        PrefixInOrder(Own(before, symbol), if x.symbol == symbol then [x] else []);
      }
      TradesGoForward(before);
      ForwardOneMore(before, x, Matching(before));
    }
  }

  lemma NothingIsForward()
    ensures IsForward([], Tally(map[], [], 0, 0))
  {
  }

  lemma PrefixInOrder(own: seq<Signal>, rest: seq<Signal>)
    requires InTimeOrder(own + rest)
    ensures InTimeOrder(own)
  {
    assert forall i :: 0 <= i < |own| ==> own[i] == (own + rest)[i];
  }

  // ---------- The streams of the engine ----------

  /** On the signals of any run of the pipeline, with any number of symbols interleaved, the summary loses nothing, its
      trades go forward in time, and its open positions are the symbols the engine still holds. */
  lemma SummaryOfAnyRun(u: Setup, events: seq<Event>)
    ensures var signals := Stream(u, events);
            var t := Matching(signals);
            && t.entries == |t.closed| + |t.pending|
            && |signals| == t.entries + t.ranges + |t.closed|
            && Wins(t.closed) + Losses(t.closed) + Flats(t.closed) == |t.closed|
            && (forall i :: 0 <= i < |t.closed| ==> IsRoundTrip(t.closed[i]))
            && (forall symbol :: symbol in t.pending <==> After(u, events, symbol).pos.side.Some?)
  {
    hide Stream, After, Own, HoldingAfter, Matching, Overwritten, Ignored, InTimeOrder, Wins, Losses, Flats, Spaced;
    var signals := Stream(u, events);
    forall symbol
      ensures HoldingAfter(Own(signals, symbol)) == HoldingOf(After(u, events, symbol).pos.side)
      ensures InTimeOrder(Own(signals, symbol))
    {
      SignalsAlternate(u, events, symbol);
      SignalsAreSpaced(u, events, symbol);
    }
    AlternatingMeansNothingIsLost(signals);
    EverySignalIsAccountedFor(signals);
    EveryTradeIsAWinALossOrFlat(Matching(signals).closed);
    TradesGoForward(signals);
  }
}
