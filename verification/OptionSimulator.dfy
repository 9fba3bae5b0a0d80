/** The simulator of directional option trades: entries, lazy expiry, exits on signals and the sweep at the end. */
module OptionSimulator {
  import opened OptionLegs
  import opened OptionPlans
  import opened Options
  import opened Rounding
  import opened Sets
  import opened SignalEngine
  import opened SignalPipeline

  /** One row of the frame of all symbols. */
  datatype Tick = Tick(symbol: string, ts: int, close: real)

  predicate IsIndexed(ticks: seq<Tick>, symbol: string) {
    exists i :: 0 <= i < |ticks| && ticks[i].symbol == symbol
  }

  /** The newest row of the symbol up to an instant; of rows with one timestamp the last. */
  function LastRowUpTo(ticks: seq<Tick>, symbol: string, ts: int): (r: Option<Tick>)
    ensures r.Some? ==> r.value in ticks && r.value.symbol == symbol && r.value.ts <= ts
    ensures forall i :: 0 <= i < |ticks| && ticks[i].symbol == symbol && ticks[i].ts <= ts ==>
              r.Some? && ticks[i].ts <= r.value.ts
  {
    if ticks == [] then None
    else
      var last := ticks[|ticks| - 1];
      var before := LastRowUpTo(ticks[..|ticks| - 1], symbol, ts);
      if last.symbol == symbol && last.ts <= ts && (before.None? || before.value.ts <= last.ts) then Some(last)
      else before
  }

  /** The last close of the symbol up to an instant. */
  function LookupSpot(ticks: seq<Tick>, symbol: string, ts: int): Option<real> {
    var row := LastRowUpTo(ticks, symbol, ts);
    if row.Some? then Some(row.value.close) else None
  }

  /** The newest timestamp of the frame. */
  function LastTs(ticks: seq<Tick>): (last: int)
    ensures ticks != [] ==> exists i :: 0 <= i < |ticks| && ticks[i].ts == last
    ensures forall i :: 0 <= i < |ticks| ==> ticks[i].ts <= last
  {
    if ticks == [] then 0
    else if |ticks| == 1 then ticks[0].ts
    else Max(LastTs(ticks[..|ticks| - 1]), ticks[|ticks| - 1].ts)
  }

  datatype OpenTrade = OpenTrade(
    entry: Signal, structure: Structure, legs: seq<ParsedLeg>, expiry: int, entryValue: real, sigma: real)

  datatype Reason = Expiry | SignalExit | DatasetEnd

  datatype ClosedTrade = ClosedTrade(trade: OpenTrade, exitTs: int, exitSpot: real, exitValue: real, reason: Reason)

  /** The plan of a signal, the volatility estimate, and the model price of legs. */
  datatype Desk = Desk(
    plan: Signal -> Planned,
    sigma: (string, int) -> real,
    price: (real, int, int, real, seq<ParsedLeg>) -> real)

  // ---------- The book ----------

  /** `dropped` are trades that were removed without a close, for want of a spot price. */
  datatype Book = Book(
    open: seq<OpenTrade>, closed: seq<ClosedTrade>, accepted: seq<OpenTrade>, dropped: seq<OpenTrade>)

  const EMPTY_BOOK := Book([], [], [], [])

  /** The place of the symbol's open trade, or the end. */
  function PlaceOf(open: seq<OpenTrade>, symbol: string): (k: nat)
    ensures k <= |open| && (k < |open| ==> open[k].entry.symbol == symbol)
    ensures forall i :: 0 <= i < k ==> open[i].entry.symbol != symbol
  {
    if open == [] || open[0].entry.symbol == symbol then 0 else 1 + PlaceOf(open[1..], symbol)
  }

  function Removed(open: seq<OpenTrade>, k: nat): seq<OpenTrade>
    requires k < |open|
  {
    open[..k] + open[k + 1..]
  }

  function CloseTrade(desk: Desk, trade: OpenTrade, ts: int, spot: real, reason: Reason): ClosedTrade {
    ClosedTrade(trade, ts, spot, desk.price(spot, ts, trade.expiry, trade.sigma, trade.legs), reason)
  }

  function Leave(desk: Desk, b: Book, k: nat, ts: int, spot: Option<real>, reason: Reason): Book
    requires k < |b.open|
  {
    var trade := b.open[k];
    if spot.Some? then b.(open := Removed(b.open, k),
                          closed := b.closed + [CloseTrade(desk, trade, ts, spot.value, reason)])
    else b.(open := Removed(b.open, k), dropped := b.dropped + [trade])
  }

  /** An open trade of the symbol that has expired by now is closed at its expiry. */
  function Expired(desk: Desk, ticks: seq<Tick>, b: Book, x: Signal): Book {
    var k := PlaceOf(b.open, x.symbol);
    if k < |b.open| && x.ts >= b.open[k].expiry
    then Leave(desk, b, k, b.open[k].expiry, LookupSpot(ticks, x.symbol, b.open[k].expiry), Expiry)
    else b
  }

  function TradeFor(desk: Desk, x: Signal, p: Planned): OpenTrade
    requires p.Spread?
  {
    var sigma := desk.sigma(x.symbol, x.ts);
    OpenTrade(x, p.structure, p.legs, p.expiry, desk.price(x.price, x.ts, p.expiry, sigma, p.legs), sigma)
  }

  /** One signal; a leg that does not parse raises an error. */
  function OnSignal(desk: Desk, ticks: seq<Tick>, b: Book, x: Signal): Option<Book> {
    if !IsIndexed(ticks, x.symbol) then Some(b)
    else
      var e := Expired(desk, ticks, b, x);
      var k := PlaceOf(e.open, x.symbol);
      if x.kind == TrendLong || x.kind == TrendShort then
        if k < |e.open| then Some(e)
        else
          match desk.plan(x)
          case NoSpread => Some(e)
          case Unparseable => None
          case Spread(_, _, _) =>
            var trade := TradeFor(desk, x, desk.plan(x));
            if trade.entryValue <= 0.0 then Some(e)
            else Some(e.(open := e.open + [trade], accepted := e.accepted + [trade]))
      else if k < |e.open| && Matches(e.open[k].entry, x) then Some(Leave(desk, e, k, x.ts, Some(x.price), SignalExit))
      else Some(e)
  }

  function OnSignals(desk: Desk, ticks: seq<Tick>, signals: seq<Signal>): Option<Book> {
    if signals == [] then Some(EMPTY_BOOK)
    else
      var before := OnSignals(desk, ticks, signals[..|signals| - 1]);
      if before.None? then None else OnSignal(desk, ticks, before.value, signals[|signals| - 1])
  }

  /** The first open trade is closed at its expiry or at the end of the data. */
  function SweepOne(desk: Desk, ticks: seq<Tick>, b: Book): Book
    requires b.open != []
  {
    var trade, last := b.open[0], LastTs(ticks);
    var ts := if trade.expiry <= last then trade.expiry else last;
    Leave(desk, b, 0, ts, LookupSpot(ticks, trade.entry.symbol, ts),
          if trade.expiry <= last then Expiry else DatasetEnd)
  }

  function Swept(desk: Desk, ticks: seq<Tick>, b: Book): Book
    decreases |b.open|
  {
    if b.open == [] then b else Swept(desk, ticks, SweepOne(desk, ticks, b))
  }

  function Simulated(desk: Desk, ticks: seq<Tick>, signals: seq<Signal>): Option<Book> {
    var b := OnSignals(desk, ticks, signals);
    if b.None? then None else Some(Swept(desk, ticks, b.value))
  }

  // ---------- The simulator ----------

  datatype Result = Failed | Done(closed: seq<ClosedTrade>, open: seq<OpenTrade>)

  /** Open positions are of different symbols that the frame knows. */
  ghost predicate IsDict(ticks: seq<Tick>, open: seq<OpenTrade>) {
    && (forall i, j :: 0 <= i < j < |open| ==> open[i].entry.symbol != open[j].entry.symbol)
    && (forall i :: 0 <= i < |open| ==> IsIndexed(ticks, open[i].entry.symbol))
  }

  lemma RemovedIsDict(ticks: seq<Tick>, open: seq<OpenTrade>, k: nat)
    requires k < |open| && IsDict(ticks, open)
    ensures IsDict(ticks, Removed(open, k))
    ensures PlaceOf(Removed(open, k), open[k].entry.symbol) == |open| - 1
  {
    var rest := Removed(open, k);
    assert forall i :: 0 <= i < |rest| ==> rest[i] == if i < k then open[i] else open[i + 1];
  }

  /** The positions left open are always none; a leg that does not parse is the only failure. */
  method SimulateDirectionalOptionTrades(desk: Desk, ticks: seq<Tick>, signals: seq<Signal>) returns (r: Result)
    ensures var b := Simulated(desk, ticks, signals);
            r == if b.None? then Failed else Done(b.value.closed, [])
  {
    var open: seq<OpenTrade> := [];
    var closed: seq<ClosedTrade> := [];
    ghost var b := EMPTY_BOOK;
    for i := 0 to |signals|
      invariant OnSignals(desk, ticks, signals[..i]) == Some(b)
      invariant b.open == open && b.closed == closed && IsDict(ticks, open)
    {
      var x := signals[i];
      assert signals[..i + 1][..i] == signals[..i];
      var failed;
      failed, open, closed := TakeSignal(desk, ticks, open, closed, b, x);
      if failed {
        FailureIsFinal(desk, ticks, signals, i + 1);
        return Failed;
      }
      b := OnSignal(desk, ticks, b, x).value;
    }
    assert signals[..|signals|] == signals;
    while open != []
      invariant IsDict(ticks, open) && b.open == open && b.closed == closed
      invariant Simulated(desk, ticks, signals) == Some(Swept(desk, ticks, b))
      decreases |open|
    {
      var current := open[0];
      var last := LastTs(ticks);
      var ts := if current.expiry <= last then current.expiry else last;
      var spot := LookupSpot(ticks, current.entry.symbol, ts);
      b := SweepOne(desk, ticks, b);
      if spot.Some? {
        var reason := if current.expiry <= last then Expiry else DatasetEnd;
        closed := closed + [CloseTrade(desk, current, ts, spot.value, reason)];
      }
      RemovedIsDict(ticks, open, 0);
      open := Removed(open, 0);
    }
    r := Done(closed, open);
  }

  /** One pass of the first loop. */
  method TakeSignal(desk: Desk, ticks: seq<Tick>, open0: seq<OpenTrade>, closed0: seq<ClosedTrade>, ghost b: Book,
                    x: Signal)
    returns (failed: bool, open: seq<OpenTrade>, closed: seq<ClosedTrade>)
    requires b.open == open0 && b.closed == closed0 && IsDict(ticks, open0)
    ensures failed <==> OnSignal(desk, ticks, b, x) == None
    ensures !failed ==>
              var after := OnSignal(desk, ticks, b, x).value;
              open == after.open && closed == after.closed && IsDict(ticks, open)
  {
    failed, open, closed := false, open0, closed0;
    if !IsIndexed(ticks, x.symbol) {
      return;
    }
    var k := PlaceOf(open, x.symbol);
    if k < |open| && x.ts >= open[k].expiry {
      var current := open[k];
      var spot := LookupSpot(ticks, x.symbol, current.expiry);
      if spot.Some? {
        closed := closed + [CloseTrade(desk, current, current.expiry, spot.value, Expiry)];
      }
      RemovedIsDict(ticks, open, k);
      open := Removed(open, k);
    }
    k := PlaceOf(open, x.symbol);
    if x.kind == TrendLong || x.kind == TrendShort {
      if k < |open| {
        return;
      }
      var plan := desk.plan(x);
      if plan == NoSpread {
        return;
      }
      if plan == Unparseable {
        failed := true;
        return;
      }
      var sigma := desk.sigma(x.symbol, x.ts);
      var value := desk.price(x.price, x.ts, plan.expiry, sigma, plan.legs);
      if value <= 0.0 {
        return;
      }
      open := open + [OpenTrade(x, plan.structure, plan.legs, plan.expiry, value, sigma)];
      return;
    }
    if k < |open| && Matches(open[k].entry, x) {
      closed := closed + [CloseTrade(desk, open[k], x.ts, x.price, SignalExit)];
      RemovedIsDict(ticks, open, k);
      open := Removed(open, k);
    }
  }

  lemma {:induction false} FailureIsFinal(desk: Desk, ticks: seq<Tick>, signals: seq<Signal>, i: nat)
    requires i <= |signals| && OnSignals(desk, ticks, signals[..i]) == None
    ensures OnSignals(desk, ticks, signals) == None
    decreases |signals|
  {
    if i < |signals| {
      assert signals[..|signals| - 1][..i] == signals[..i];
      FailureIsFinal(desk, ticks, signals[..|signals| - 1], i);
    } else {
      assert signals[..i] == signals;
    }
  }

  /** Only a leg that does not parse makes the simulation fail. */
  lemma {:induction false} ParseableSignalsSucceed(desk: Desk, ticks: seq<Tick>, signals: seq<Signal>)
    requires forall i :: 0 <= i < |signals| ==> desk.plan(signals[i]) != Unparseable
    ensures OnSignals(desk, ticks, signals).Some? && Simulated(desk, ticks, signals).Some?
  {
    hide Swept, Expired, Leave, IsIndexed;
    if signals != [] {
      var n := |signals| - 1;
      assert forall i :: 0 <= i < n ==> signals[..n][i] == signals[i];
      ParseableSignalsSucceed(desk, ticks, signals[..n]);
      assert desk.plan(signals[n]) != Unparseable;
    }
  }

  /** The run gets to the signal, which is an entry of a symbol of the frame that has no open trade left. */
  ghost predicate IsReachedFlat(desk: Desk, ticks: seq<Tick>, signals: seq<Signal>, i: nat)
    requires i < |signals|
  {
    var b, x := OnSignals(desk, ticks, signals[..i]), signals[i];
    && b.Some? && IsIndexed(ticks, x.symbol) && IsEntry(x.kind)
    && var open := Expired(desk, ticks, b.value, x).open; PlaceOf(open, x.symbol) == |open|
  }

  lemma SignalFailsIff(desk: Desk, ticks: seq<Tick>, b: Book, x: Signal)
    ensures OnSignal(desk, ticks, b, x).None? <==>
            && IsIndexed(ticks, x.symbol) && IsEntry(x.kind) && desk.plan(x) == Unparseable
            && var open := Expired(desk, ticks, b, x).open; PlaceOf(open, x.symbol) == |open|
  {
    hide Expired, Leave, IsIndexed;
  }

  lemma ReachedInPrefix(desk: Desk, ticks: seq<Tick>, signals: seq<Signal>, i: nat)
    requires i < |signals| - 1
    ensures IsReachedFlat(desk, ticks, signals[..|signals| - 1], i) <==> IsReachedFlat(desk, ticks, signals, i)
  {
    assert signals[..|signals| - 1][..i] == signals[..i];
  }

  lemma LastFails(desk: Desk, ticks: seq<Tick>, signals: seq<Signal>)
    requires signals != []
    ensures var n := |signals| - 1;
            OnSignals(desk, ticks, signals).None? <==>
            || OnSignals(desk, ticks, signals[..n]).None?
            || (IsReachedFlat(desk, ticks, signals, n) && desk.plan(signals[n]) == Unparseable)
  {
    hide OnSignal, Expired, IsIndexed;
    var before := OnSignals(desk, ticks, signals[..|signals| - 1]);
    if before.Some? {
      SignalFailsIff(desk, ticks, before.value, signals[|signals| - 1]);
    }
  }

  ghost predicate FailsAt(desk: Desk, ticks: seq<Tick>, signals: seq<Signal>, i: nat)
    requires i < |signals|
  {
    IsReachedFlat(desk, ticks, signals, i) && desk.plan(signals[i]) == Unparseable
  }

  /** A simulation fails if and only if some entry whose legs do not parse is reached while its symbol is flat. */
  lemma {:induction false} SimulationFailsIff(desk: Desk, ticks: seq<Tick>, signals: seq<Signal>)
    ensures Simulated(desk, ticks, signals).None? <==>
            exists i :: 0 <= i < |signals| && FailsAt(desk, ticks, signals, i)
  {
    hide OnSignal, Swept, IsReachedFlat, OnSignals;
    if signals == [] {
      NothingFails(desk, ticks);
    } else {
      var n := |signals| - 1;
      SimulationFailsIff(desk, ticks, signals[..n]);
      LastFails(desk, ticks, signals);
      forall i | 0 <= i < n
        ensures FailsAt(desk, ticks, signals[..n], i) <==> FailsAt(desk, ticks, signals, i)
      {
        ReachedInPrefix(desk, ticks, signals, i);
      }
      assert FailsAt(desk, ticks, signals, n) <==>
             IsReachedFlat(desk, ticks, signals, n) && desk.plan(signals[n]) == Unparseable;
    }
  }

  lemma NothingFails(desk: Desk, ticks: seq<Tick>)
    ensures OnSignals(desk, ticks, []).Some?
  {
  }

  // ---------- Every accepted trade ends ----------

  function TradesOf(closed: seq<ClosedTrade>): (trades: seq<OpenTrade>)
    ensures |trades| == |closed|
    ensures forall i :: 0 <= i < |closed| ==> trades[i] == closed[i].trade
  {
    seq(|closed|, i requires 0 <= i < |closed| => closed[i].trade)
  }

  /** Each accepted trade is closed, open or dropped, as often as it was accepted. */
  ghost predicate Accounted(b: Book) {
    multiset(b.accepted) == multiset(TradesOf(b.closed)) + multiset(b.open) + multiset(b.dropped)
  }

  lemma LeaveAccounts(desk: Desk, b: Book, k: nat, ts: int, spot: Option<real>, reason: Reason)
    requires k < |b.open| && Accounted(b)
    ensures Accounted(Leave(desk, b, k, ts, spot, reason))
  {
    var trade, after := b.open[k], Leave(desk, b, k, ts, spot, reason);
    RemoveOne(b.open, k);
    assert trade in multiset(b.open);
    if spot.Some? {
      assert TradesOf(after.closed) == TradesOf(b.closed) + [trade];
    }
  }

  lemma SignalAccounts(desk: Desk, ticks: seq<Tick>, b: Book, x: Signal)
    requires Accounted(b)
    ensures OnSignal(desk, ticks, b, x).Some? ==> Accounted(OnSignal(desk, ticks, b, x).value)
  {
    hide LookupSpot, Leave, IsIndexed, Accounted;
    var k := PlaceOf(b.open, x.symbol);
    var e := Expired(desk, ticks, b, x);
    if e != b {
      LeaveAccounts(desk, b, k, b.open[k].expiry, LookupSpot(ticks, x.symbol, b.open[k].expiry), Expiry);
    }
    var j := PlaceOf(e.open, x.symbol);
    if j < |e.open| {
      LeaveAccounts(desk, e, j, x.ts, Some(x.price), SignalExit);
    } else if desk.plan(x).Spread? {
      AcceptAccounts(e, TradeFor(desk, x, desk.plan(x)));
    }
  }

  lemma AcceptAccounts(b: Book, trade: OpenTrade)
    requires Accounted(b)
    ensures Accounted(b.(open := b.open + [trade], accepted := b.accepted + [trade]))
  {
  }

  lemma {:induction false} SignalsAccount(desk: Desk, ticks: seq<Tick>, signals: seq<Signal>)
    ensures OnSignals(desk, ticks, signals).Some? ==> Accounted(OnSignals(desk, ticks, signals).value)
  {
    hide OnSignal;
    if signals != [] {
      var before := signals[..|signals| - 1];
      SignalsAccount(desk, ticks, before);
      if OnSignals(desk, ticks, before).Some? {
        SignalAccounts(desk, ticks, OnSignals(desk, ticks, before).value, signals[|signals| - 1]);
      }
    }
  }

  lemma {:induction false} SweepAccounts(desk: Desk, ticks: seq<Tick>, b: Book)
    requires Accounted(b)
    ensures Accounted(Swept(desk, ticks, b)) && Swept(desk, ticks, b).open == []
    ensures Swept(desk, ticks, b).accepted == b.accepted
    decreases |b.open|
  {
    hide Accounted, LookupSpot;
    if b.open != [] {
      var trade, last := b.open[0], LastTs(ticks);
      var ts := if trade.expiry <= last then trade.expiry else last;
      LeaveAccounts(desk, b, 0, ts, LookupSpot(ticks, trade.entry.symbol, ts),
                    if trade.expiry <= last then Expiry else DatasetEnd);
      SweepAccounts(desk, ticks, SweepOne(desk, ticks, b));
    }
  }

  /** On any frame and any signals: nothing stays open, and each accepted trade was closed once or was dropped for
      want of a spot price. */
  lemma EveryTradeEnds(desk: Desk, ticks: seq<Tick>, signals: seq<Signal>)
    ensures var r := Simulated(desk, ticks, signals);
            r.Some? ==> && r.value.open == []
                        && multiset(r.value.accepted) == multiset(TradesOf(r.value.closed)) + multiset(r.value.dropped)
  {
    hide OnSignals, Swept;
    SignalsAccount(desk, ticks, signals);
    if OnSignals(desk, ticks, signals).Some? {
      SweepAccounts(desk, ticks, OnSignals(desk, ticks, signals).value);
    }
  }

  // ---------- Signals on bars, in time order ----------

  /** The symbol has a row at the instant. */
  ghost predicate HasTick(ticks: seq<Tick>, symbol: string, ts: int) {
    exists i :: 0 <= i < |ticks| && ticks[i].symbol == symbol && ticks[i].ts == ts
  }

  lemma LookupFinds(ticks: seq<Tick>, symbol: string, at: int, ts: int)
    requires HasTick(ticks, symbol, at) && at <= ts
    ensures LookupSpot(ticks, symbol, ts).Some?
  {
    var i :| 0 <= i < |ticks| && ticks[i].symbol == symbol && ticks[i].ts == at;
  }

  /** The entry is on a bar and the expiry is not before it. */
  ghost predicate IsTimely(ticks: seq<Tick>, trade: OpenTrade) {
    HasTick(ticks, trade.entry.symbol, trade.entry.ts) && trade.entry.ts <= trade.expiry
  }

  ghost predicate InsideItsLife(c: ClosedTrade) {
    c.trade.entry.ts <= c.exitTs <= c.trade.expiry
  }

  /** The second trade of a symbol starts when the first one is over. */
  ghost predicate Follows(first: ClosedTrade, second: OpenTrade) {
    first.trade.entry.symbol == second.entry.symbol ==> first.exitTs <= second.entry.ts
  }

  ghost predicate Sound(ticks: seq<Tick>, b: Book) {
    && b.dropped == [] && IsDict(ticks, b.open)
    && (forall k :: 0 <= k < |b.open| ==> IsTimely(ticks, b.open[k]))
    && (forall i :: 0 <= i < |b.closed| ==> InsideItsLife(b.closed[i]))
    && (forall i, j :: 0 <= i < j < |b.closed| ==> Follows(b.closed[i], b.closed[j].trade))
    && (forall i, k :: 0 <= i < |b.closed| && 0 <= k < |b.open| ==> Follows(b.closed[i], b.open[k]))
  }

  /** Everything that happened to the symbol happened up to `ts`. */
  ghost predicate UpTo(b: Book, symbol: string, ts: int) {
    && (forall i :: 0 <= i < |b.closed| && b.closed[i].trade.entry.symbol == symbol ==> b.closed[i].exitTs <= ts)
    && (forall k :: 0 <= k < |b.open| && b.open[k].entry.symbol == symbol ==> b.open[k].entry.ts <= ts)
  }

  /** What is new happened to one symbol, up to `ts`. */
  ghost predicate Reaches(b: Book, after: Book, symbol: string, ts: int) {
    forall s, t :: UpTo(b, s, t) && (s == symbol ==> ts <= t) ==> UpTo(after, s, t)
  }

  lemma LeaveIsSound(desk: Desk, ticks: seq<Tick>, b: Book, k: nat, ts: int, spot: Option<real>, reason: Reason)
    requires k < |b.open| && Sound(ticks, b) && spot.Some?
    requires b.open[k].entry.ts <= ts <= b.open[k].expiry
    ensures Sound(ticks, Leave(desk, b, k, ts, spot, reason))
    ensures Reaches(b, Leave(desk, b, k, ts, spot, reason), b.open[k].entry.symbol, ts)
  {
    hide HasTick, IsTimely, Reaches;
    var trade, after := b.open[k], Leave(desk, b, k, ts, spot, reason);
    RemovedIsDict(ticks, b.open, k);
    RemovedFrom(b.open, k);
    assert forall i :: 0 <= i < |after.open| ==> after.open[i].entry.symbol != trade.entry.symbol;
    LeaveReaches(desk, b, k, ts, spot, reason);
  }

  lemma RemovedFrom(open: seq<OpenTrade>, k: nat)
    requires k < |open|
    ensures var rest := Removed(open, k);
            |rest| == |open| - 1 && forall i :: 0 <= i < |rest| ==> rest[i] == if i < k then open[i] else open[i + 1]
  {
  }

  lemma LeaveReaches(desk: Desk, b: Book, k: nat, ts: int, spot: Option<real>, reason: Reason)
    requires k < |b.open| && spot.Some?
    ensures Reaches(b, Leave(desk, b, k, ts, spot, reason), b.open[k].entry.symbol, ts)
  {
    RemovedFrom(b.open, k);
  }

  lemma AcceptIsSound(ticks: seq<Tick>, b: Book, trade: OpenTrade)
    requires Sound(ticks, b) && IsTimely(ticks, trade) && IsIndexed(ticks, trade.entry.symbol)
    requires PlaceOf(b.open, trade.entry.symbol) == |b.open|
    requires UpTo(b, trade.entry.symbol, trade.entry.ts)
    ensures var after := b.(open := b.open + [trade], accepted := b.accepted + [trade]);
            Sound(ticks, after) && Reaches(b, after, trade.entry.symbol, trade.entry.ts)
  {
    hide HasTick, IsTimely, IsIndexed;
  }

  lemma ExpiredIsSound(desk: Desk, ticks: seq<Tick>, b: Book, x: Signal)
    requires Sound(ticks, b) && UpTo(b, x.symbol, x.ts)
    ensures var e := Expired(desk, ticks, b, x);
            && Sound(ticks, e) && Reaches(b, e, x.symbol, x.ts)
            && var k := PlaceOf(e.open, x.symbol); k < |e.open| ==> e == b && x.ts < b.open[k].expiry
  {
    hide LookupSpot, Leave, UpTo, HasTick;
    var k := PlaceOf(b.open, x.symbol);
    if k < |b.open| && x.ts >= b.open[k].expiry {
      var trade := b.open[k];
      assert IsTimely(ticks, trade);
      LookupFinds(ticks, x.symbol, trade.entry.ts, trade.expiry);
      LeaveIsSound(desk, ticks, b, k, trade.expiry, LookupSpot(ticks, x.symbol, trade.expiry), Expiry);
      RemovedIsDict(ticks, b.open, k);
      LeaveRemoves(desk, b, k, trade.expiry, LookupSpot(ticks, x.symbol, trade.expiry), Expiry);
    }
  }

  lemma LeaveRemoves(desk: Desk, b: Book, k: nat, ts: int, spot: Option<real>, reason: Reason)
    requires k < |b.open|
    ensures Leave(desk, b, k, ts, spot, reason).open == Removed(b.open, k)
  {
  }

  /** An entry signal is on a bar of its symbol, and the planned spread does not expire before it. */
  ghost predicate CanTrade(desk: Desk, ticks: seq<Tick>, x: Signal) {
    !IsExit(x.kind) ==>
      HasTick(ticks, x.symbol, x.ts) && (desk.plan(x).Spread? ==> x.ts <= desk.plan(x).expiry)
  }

  lemma SignalIsSound(desk: Desk, ticks: seq<Tick>, b: Book, x: Signal)
    requires Sound(ticks, b) && UpTo(b, x.symbol, x.ts) && CanTrade(desk, ticks, x)
    ensures var after := OnSignal(desk, ticks, b, x);
            after.Some? ==> Sound(ticks, after.value) && Reaches(b, after.value, x.symbol, x.ts)
  {
    hide LookupSpot, Leave, HasTick, IsIndexed, Expired, IsDict;
    if IsIndexed(ticks, x.symbol) {
      var e := Expired(desk, ticks, b, x);
      ExpiredIsSound(desk, ticks, b, x);
      assert UpTo(e, x.symbol, x.ts);
      var k := PlaceOf(e.open, x.symbol);
      if k < |e.open| {
        if IsExit(x.kind) && Matches(e.open[k].entry, x) {
          LeaveIsSound(desk, ticks, e, k, x.ts, Some(x.price), SignalExit);
        }
      } else if desk.plan(x).Spread? && (x.kind == TrendLong || x.kind == TrendShort) {
        AcceptIsSound(ticks, e, TradeFor(desk, x, desk.plan(x)));
      }
    }
  }

  ghost predicate AllCanTrade(desk: Desk, ticks: seq<Tick>, signals: seq<Signal>) {
    forall i :: 0 <= i < |signals| ==> CanTrade(desk, ticks, signals[i])
  }

  ghost predicate Chronological(signals: seq<Signal>) {
    forall symbol :: InTimeOrder(Own(signals, symbol))
  }

  ghost predicate AllUpTo(own: seq<Signal>, ts: int) {
    forall i :: 0 <= i < |own| ==> own[i].ts <= ts
  }

  lemma LastIsLatest(own: seq<Signal>, x: Signal)
    requires InTimeOrder(own + [x])
    ensures InTimeOrder(own) && AllUpTo(own, x.ts)
  {
    assert forall i :: 0 <= i < |own| ==> own[i] == (own + [x])[i];
    assert forall i :: 0 <= i < |own| ==> (own + [x])[i].ts <= (own + [x])[|own|].ts;
  }

  lemma ChronologicalPrefix(before: seq<Signal>, x: Signal)
    requires Chronological(before + [x])
    ensures Chronological(before) && AllUpTo(Own(before, x.symbol), x.ts)
  {
    hide Own;
    forall symbol
      ensures InTimeOrder(Own(before, symbol))
    {
      OwnSnoc(before, x, symbol);
      assert InTimeOrder(Own(before + [x], symbol));
      if symbol == x.symbol {
        LastIsLatest(Own(before, symbol), x);
      } else {
        assert Own(before, symbol) + [] == Own(before, symbol);
      }
    }
    OwnSnoc(before, x, x.symbol);
    assert InTimeOrder(Own(before + [x], x.symbol));
    LastIsLatest(Own(before, x.symbol), x);
  }

  lemma UpToOneMore(before: seq<Signal>, x: Signal, symbol: string, ts: int)
    requires AllUpTo(Own(before + [x], symbol), ts)
    ensures AllUpTo(Own(before, symbol), ts) && (symbol == x.symbol ==> x.ts <= ts)
  {
    hide Own;
    OwnSnoc(before, x, symbol);
    var own := Own(before, symbol);
    if symbol == x.symbol {
      assert (own + [x])[|own|] == x;
      assert forall i :: 0 <= i < |own| ==> (own + [x])[i] == own[i];
    } else {
      assert own + [] == own;
    }
  }

  ghost predicate BookUpTo(b: Book, signals: seq<Signal>) {
    forall symbol, ts :: AllUpTo(Own(signals, symbol), ts) ==> UpTo(b, symbol, ts)
  }

  lemma {:induction false} SignalsAreSound(desk: Desk, ticks: seq<Tick>, signals: seq<Signal>)
    requires AllCanTrade(desk, ticks, signals) && Chronological(signals)
    ensures var b := OnSignals(desk, ticks, signals);
            b.Some? ==> Sound(ticks, b.value) && BookUpTo(b.value, signals)
  {
    hide OnSignal, Own, Sound, UpTo, AllUpTo, Chronological, CanTrade;
    if signals == [] {
      NothingIsSound(ticks);
    } else {
      var before, x := signals[..|signals| - 1], signals[|signals| - 1];
      assert signals == before + [x];
      ChronologicalPrefix(before, x);
      SignalsAreSound(desk, ticks, before);
      var b := OnSignals(desk, ticks, before);
      if b.Some? {
        SignalIsSound(desk, ticks, b.value, x);
        forall symbol, ts | AllUpTo(Own(signals, symbol), ts)
          ensures UpTo(b.value, symbol, ts) && (symbol == x.symbol ==> x.ts <= ts)
        {
          UpToOneMore(before, x, symbol, ts);
        }
      }
    }
  }

  lemma NothingIsSound(ticks: seq<Tick>)
    ensures Sound(ticks, EMPTY_BOOK) && BookUpTo(EMPTY_BOOK, [])
  {
  }

  lemma {:induction false} SweepIsSound(desk: Desk, ticks: seq<Tick>, b: Book)
    requires Sound(ticks, b)
    ensures Sound(ticks, Swept(desk, ticks, b))
    decreases |b.open|
  {
    hide LookupSpot, Leave, UpTo, IsDict, IsIndexed;
    if b.open != [] {
      var trade, last := b.open[0], LastTs(ticks);
      var ts := if trade.expiry <= last then trade.expiry else last;
      assert IsTimely(ticks, trade);
      LookupFinds(ticks, trade.entry.symbol, trade.entry.ts, ts);
      LeaveIsSound(desk, ticks, b, 0, ts, LookupSpot(ticks, trade.entry.symbol, ts),
                   if trade.expiry <= last then Expiry else DatasetEnd);
      LeaveRemoves(desk, b, 0, ts, LookupSpot(ticks, trade.entry.symbol, ts),
                   if trade.expiry <= last then Expiry else DatasetEnd);
      SweepIsSound(desk, ticks, SweepOne(desk, ticks, b));
    }
  }

  ghost predicate TradesAreSound(b: Book) {
    && b.open == [] && multiset(b.accepted) == multiset(TradesOf(b.closed))
    && (forall i :: 0 <= i < |b.closed| ==> InsideItsLife(b.closed[i]))
    && (forall i, j :: 0 <= i < j < |b.closed| ==> Follows(b.closed[i], b.closed[j].trade))
  }

  /** For signals in time order on bars of their symbols, with expiries not before the entries: every accepted trade is
      closed exactly once, inside its life, and the trades of one symbol follow one another without overlap. */
  lemma SimulatedTradesAreSound(desk: Desk, ticks: seq<Tick>, signals: seq<Signal>)
    requires AllCanTrade(desk, ticks, signals) && Chronological(signals)
    ensures var r := Simulated(desk, ticks, signals); r.Some? ==> TradesAreSound(r.value)
  {
    hide OnSignals, Swept, Own, AllCanTrade, Chronological, InsideItsLife, Follows, IsDict;
    EveryTradeEnds(desk, ticks, signals);
    SignalsAreSound(desk, ticks, signals);
    if OnSignals(desk, ticks, signals).Some? {
      SweepIsSound(desk, ticks, OnSignals(desk, ticks, signals).value);
    }
  }
}
