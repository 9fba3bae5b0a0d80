/** Option plans for signals: strikes on a grid, legs as text, and the parsed and scaled legs that are priced. */
module OptionPlans {
  import opened OptionLegs
  import opened Options
  import opened Rounding
  import opened SignalEngine
  import opened Sums
  import TradingDays

  /** Strike step and wing are in millionths, and the expiries in trading days. */
  datatype PlanConfig = PlanConfig(
    strikeStep: int, wingWidth: int, directionalDays: int, rangeDays: int,
    contracts: int, invert: bool, minRr: real)

  /** The local date of an instant, the text of a date, and the instant at which options of a date expire. */
  datatype Dates = Dates(day: int -> int, iso: int -> IsoDate, close: int -> int)

  datatype Structure = CallDebitSpread | PutDebitSpread | CallButterfly | CloseSpread

  datatype Plan = Plan(structure: Structure, legs: seq<PlanLeg>)

  type Step = n: int | n > 0 witness 1

  function StepOf(cfg: PlanConfig): Step {
    if cfg.strikeStep > 0 then cfg.strikeStep else MICRO
  }

  // ---------- Strikes on the grid ----------

  function Units(value: real, step: Step): real {
    value * MICRO as real / step as real
  }

  function StrikeDown(value: real, step: Step): int {
    Grid(Units(value, step).Floor, step)
  }

  function StrikeUp(value: real, step: Step): int {
    Grid(-(-Units(value, step)).Floor, step)
  }

  function StrikeNearest(value: real, step: Step): int {
    Grid(RoundHalfEven(Units(value, step)), step)
  }

  ghost predicate OnGrid(strike: int, step: Step) {
    exists k: int :: strike == Grid(k, step)
  }

  function Grid(k: int, step: Step): int {
    k * step
  }

  /** Comparing counts of steps is comparing prices. */
  lemma GridBounds(k: int, x: real, value: real, step: Step)
    requires x == Units(value, step)
    ensures k as real <= x ==> Dollars(Grid(k, step)) <= value
    ensures k as real >= x ==> Dollars(Grid(k, step)) >= value
    ensures k as real > x ==> Dollars(Grid(k, step)) > value
    ensures k as real < x ==> Dollars(Grid(k, step)) < value
  {
    hide Grid;
    UnitsTimesStep(value, step);
    GridAsReal(k, step);
    ScaledOrder(k as real, x, step as real);
    ScaledOrder(x, k as real, step as real);
  }

  lemma UnitsTimesStep(value: real, step: Step)
    ensures Scaled(Units(value, step), step as real) == value * 1000000.0
  {
  }

  lemma GridAsReal(k: int, step: Step)
    ensures Grid(k, step) as real == Scaled(k as real, step as real)
  {
  }

  lemma NextGrid(k: int, step: Step)
    ensures Dollars(Grid(k + 1, step)) == Dollars(Grid(k, step)) + Dollars(step)
    ensures Dollars(Grid(k - 1, step)) == Dollars(Grid(k, step)) - Dollars(step)
  {
    GridOneMore(k, step);
  }

  lemma GridOneMore(k: int, step: Step)
    ensures Grid(k + 1, step) == Grid(k, step) + step && Grid(k - 1, step) == Grid(k, step) - step
  {
  }

  /** Rounding down and up gives the grid strikes next to the price. */
  lemma StrikesEncloseThePrice(value: real, step: Step)
    ensures OnGrid(StrikeDown(value, step), step) && OnGrid(StrikeUp(value, step), step)
    ensures Dollars(StrikeDown(value, step)) <= value < Dollars(StrikeDown(value, step)) + Dollars(step)
    ensures Dollars(StrikeUp(value, step)) - Dollars(step) < value <= Dollars(StrikeUp(value, step))
  {
    hide Units, Grid, Dollars;
    var x := Units(value, step);
    var up := -(-x).Floor;
    assert StrikeDown(value, step) == Grid(x.Floor, step);
    assert StrikeUp(value, step) == Grid(up, step);
    GridBounds(x.Floor, x, value, step);
    GridBounds(x.Floor + 1, x, value, step);
    NextGrid(x.Floor, step);
    GridBounds(up, x, value, step);
    GridBounds(up - 1, x, value, step);
    NextGrid(up, step);
  }

  lemma GridNeighbours(a: int, b: int, step: Step)
    requires OnGrid(a, step) && OnGrid(b, step)
    ensures a > b ==> a >= b + step
    ensures OnGrid(a + step, step) && OnGrid(a - step, step)
  {
    hide Grid;
    var i: int :| a == Grid(i, step);
    var j: int :| b == Grid(j, step);
    GridOneMore(i, step);
    GridOrder(i, j, step);
  }

  lemma GridOrder(i: int, j: int, step: Step)
    ensures i > j ==> Grid(i, step) >= Grid(j, step) + step
    ensures i <= j ==> Grid(i, step) <= Grid(j, step)
  {
    hide Grid;
    if i > j {
      GridFar(j, i - j, step);
    } else {
      GridFar(i, j - i, step);
    }
  }

  lemma {:induction false} GridFar(k: int, n: nat, step: Step)
    ensures Grid(k + n, step) >= Grid(k, step) + if n > 0 then step else 0
  {
    hide Grid;
    if n > 0 {
      GridFar(k, n - 1, step);
      GridOneMore(k + n - 1, step);
    }
  }

  // ---------- Plans ----------

  function CallSpread(symbol: string, expiry: IsoDate, price: real, target: real, step: Step): Plan {
    var long, up := StrikeDown(price, step), StrikeUp(target, step);
    var short := if up <= long then long + step else up;
    Plan(CallDebitSpread, [PlanLeg(Buy, 1, symbol, expiry, long, Call), PlanLeg(Sell, 1, symbol, expiry, short, Call)])
  }

  function PutSpread(symbol: string, expiry: IsoDate, price: real, target: real, step: Step): Plan {
    var long, down := StrikeUp(price, step), StrikeDown(target, step);
    var short := if down >= long then long - step else down;
    Plan(PutDebitSpread, [PlanLeg(Buy, 1, symbol, expiry, long, Put), PlanLeg(Sell, 1, symbol, expiry, short, Put)])
  }

  function Butterfly(symbol: string, expiry: IsoDate, center: real, cfg: PlanConfig): Plan {
    var step := StepOf(cfg);
    var body := StrikeNearest(center, step);
    var width := if cfg.wingWidth > 0 then cfg.wingWidth else step;
    var wing := if width < step then step else width;
    Plan(CallButterfly, [PlanLeg(Buy, 1, symbol, expiry, body - wing, Call),
                         PlanLeg(Sell, 2, symbol, expiry, body, Call),
                         PlanLeg(Buy, 1, symbol, expiry, body + wing, Call)])
  }

  /** How far the target is when the signal names none: two steps, and at least 0.3 percent. */
  function DefaultMove(price: real, step: Step): real {
    MaxR(Dollars(step) * 2.0, price * 0.003)
  }

  /** The target that the plan of a directional signal uses. */
  function TargetOf(cfg: PlanConfig, x: Signal): real {
    if x.target.Some? then x.target.value
    else if x.kind == TrendShort then x.price - DefaultMove(x.price, StepOf(cfg))
    else x.price + DefaultMove(x.price, StepOf(cfg))
  }

  function ExpiryDay(dates: Dates, x: Signal, sessions: int): int {
    TradingDays.ClosedForm(dates.day(x.ts), sessions)
  }

  function BuildPlan(cfg: PlanConfig, dates: Dates, x: Signal): Plan {
    match x.kind
    case TrendLong =>
      CallSpread(x.symbol, dates.iso(ExpiryDay(dates, x, cfg.directionalDays)), x.price, TargetOf(cfg, x), StepOf(cfg))
    case TrendShort =>
      PutSpread(x.symbol, dates.iso(ExpiryDay(dates, x, cfg.directionalDays)), x.price, TargetOf(cfg, x), StepOf(cfg))
    case RangeZone =>
      Butterfly(x.symbol, dates.iso(ExpiryDay(dates, x, cfg.rangeDays)),
                if x.center.Some? then x.center.value else x.price, cfg)
    case _ => Plan(CloseSpread, [])
  }

  /** The distance of the stop, or without one the strike step and at least 0.3 percent. */
  function RiskOf(cfg: PlanConfig, x: Signal): real {
    if x.stop.Some? then Abs(x.price - x.stop.value) else MaxR(Dollars(cfg.strikeStep), x.price * 0.003)
  }

  function ReachOf(cfg: PlanConfig, x: Signal): real {
    RiskOf(cfg, x) * cfg.minRr
  }

  /** The signal of the other side, as far from the price as the stop is. */
  function Mirrored(cfg: PlanConfig, x: Signal): Signal {
    var risk := RiskOf(cfg, x);
    var move := MaxR(ReachOf(cfg, x), x.price * 0.003);
    if x.kind == TrendLong then
      x.(kind := TrendShort, stop := Some(Round4(x.price + risk)), target := Some(Round4(x.price - move)))
    else
      x.(kind := TrendLong, stop := Some(Round4(MaxR(0.01, x.price - risk))), target := Some(Round4(x.price + move)))
  }

  /** The signal whose plan the option backtest trades. */
  function PlannedFor(cfg: PlanConfig, x: Signal): Signal {
    if cfg.invert && (x.kind == TrendLong || x.kind == TrendShort) then Mirrored(cfg, x) else x
  }

  // ---------- Shape of the plans ----------

  /** A spread buys one contract and sells one, of one symbol, expiry and right. */
  predicate IsSpread(p: Plan, structure: Structure, symbol: string, expiry: IsoDate, right: Right) {
    && p.structure == structure && |p.legs| == 2
    && p.legs[0] == PlanLeg(Buy, 1, symbol, expiry, p.legs[0].strike, right)
    && p.legs[1] == PlanLeg(Sell, 1, symbol, expiry, p.legs[1].strike, right)
  }

  /** A call debit spread buys at or below the price and sells above the bought strike, at or above the target, and less
      than a step above it unless that is not beyond the bought strike. */
  lemma CallSpreadShape(symbol: string, expiry: IsoDate, price: real, target: real, step: Step)
    ensures IsSpread(CallSpread(symbol, expiry, price, target, step), CallDebitSpread, symbol, expiry, Call)
    ensures var legs := CallSpread(symbol, expiry, price, target, step).legs;
            && (Dollars(legs[1].strike) < target + Dollars(step) || legs[1].strike == legs[0].strike + step)
            && Dollars(legs[0].strike) <= price < Dollars(legs[0].strike) + Dollars(step)
            && legs[1].strike >= legs[0].strike + step
            && Dollars(legs[1].strike) >= target
            && OnGrid(legs[0].strike, step) && OnGrid(legs[1].strike, step)
            && (price > 0.0 ==> legs[0].strike >= 0)
  {
    hide StrikeDown, StrikeUp, OnGrid;
    StrikesEncloseThePrice(price, step);
    StrikesEncloseThePrice(target, step);
    GridNeighbours(StrikeUp(target, step), StrikeDown(price, step), step);
    GridNeighbours(StrikeDown(price, step), StrikeDown(price, step), step);
    if price > 0.0 {
      GridIsNotNegative(StrikeDown(price, step), step);
    }
  }

  /** A put debit spread buys at or above the price and sells below the bought strike, at or below the target; for a
      positive price its short strike is negative exactly when the target is. It sells less than a step below the
      target unless that is not beyond the bought strike. */
  lemma PutSpreadShape(symbol: string, expiry: IsoDate, price: real, target: real, step: Step)
    ensures IsSpread(PutSpread(symbol, expiry, price, target, step), PutDebitSpread, symbol, expiry, Put)
    ensures var legs := PutSpread(symbol, expiry, price, target, step).legs;
            && (Dollars(legs[1].strike) > target - Dollars(step) || legs[1].strike == legs[0].strike - step)
            && Dollars(legs[0].strike) - Dollars(step) < price <= Dollars(legs[0].strike)
            && legs[1].strike <= legs[0].strike - step
            && Dollars(legs[1].strike) <= target
            && OnGrid(legs[0].strike, step) && OnGrid(legs[1].strike, step)
            && (price > 0.0 ==> legs[0].strike >= step && (legs[1].strike >= 0 <==> target >= 0.0))
  {
    hide StrikeDown, StrikeUp, OnGrid;
    StrikesEncloseThePrice(price, step);
    StrikesEncloseThePrice(target, step);
    GridNeighbours(StrikeUp(price, step), StrikeDown(target, step), step);
    GridNeighbours(StrikeUp(price, step), StrikeUp(price, step), step);
    if price > 0.0 {
      ZeroIsOnGrid(step);
      GridNeighbours(StrikeUp(price, step), 0, step);
      if target >= 0.0 {
        GridIsNotNegative(StrikeDown(target, step), step);
      }
    }
  }

  lemma ZeroIsOnGrid(step: Step)
    ensures OnGrid(0, step)
  {
    assert 0 == Grid(0, step);
  }

  lemma GridIsNotNegative(strike: int, step: Step)
    requires OnGrid(strike, step) && strike + step > 0
    ensures strike >= 0
  {
    ZeroIsOnGrid(step);
    GridNeighbours(0, strike, step);
  }

  /** A range butterfly buys one call on either side of two sold ones, whose strike is a grid strike nearest to the
      center; its wings are as wide as configured, but at least a step. */
  lemma ButterflyShape(symbol: string, expiry: IsoDate, center: real, cfg: PlanConfig)
    ensures var p, step := Butterfly(symbol, expiry, center, cfg), StepOf(cfg);
            && p.structure == CallButterfly && |p.legs| == 3
            && var low, body, high := p.legs[0].strike, p.legs[1].strike, p.legs[2].strike;
               && p.legs == [PlanLeg(Buy, 1, symbol, expiry, low, Call), PlanLeg(Sell, 2, symbol, expiry, body, Call),
                             PlanLeg(Buy, 1, symbol, expiry, high, Call)]
               && OnGrid(body, step)
               && Dollars(body) - Dollars(step) / 2.0 <= center <= Dollars(body) + Dollars(step) / 2.0
               && body - low == high - body == Max(step, cfg.wingWidth)
  {
    hide StrikeNearest;
    NearestIsNear(center, StepOf(cfg));
  }

  lemma NearestIsNear(value: real, step: Step)
    ensures OnGrid(StrikeNearest(value, step), step)
    ensures var body := StrikeNearest(value, step);
            Dollars(body) - Dollars(step) / 2.0 <= value <= Dollars(body) + Dollars(step) / 2.0
  {
    hide Units, Grid, RoundHalfEven;
    var x := Units(value, step);
    var n := RoundHalfEven(x);
    assert StrikeNearest(value, step) == Grid(n, step);
    UnitsTimesStep(value, step);
    GridAsReal(n, step);
    ScaledDifference(n as real, x, step as real);
    HalfAtMost(n as real - x, step as real);
  }

  function Signed(side: LegSide, quantity: nat): int {
    var q: int := quantity;
    if side == Buy then q else -q
  }

  // ---------- Reading the legs back ----------

  /** The leg survives being written into the plan and parsed again. */
  ghost predicate ReadsBack(leg: PlanLeg) {
    ParseLeg(PlanText(leg)) == Some(Parsed(leg, Dollars(leg.strike)))
  }

  lemma GridOfCents(strike: int, step: Step)
    requires OnGrid(strike, step) && step % CENT == 0
    ensures strike % CENT == 0
  {
    var k: int :| strike == Grid(k, step);
    var q := step / CENT;
    assert step == CENT * q;
    assert k * step == CENT * (k * q);
  }

  /** With a step of whole cents a call spread is read back exactly when the symbol is in capital letters. */
  lemma CallSpreadReadsBack(symbol: string, expiry: IsoDate, price: real, target: real, step: Step)
    requires price > 0.0 && step % CENT == 0
    ensures var legs := CallSpread(symbol, expiry, price, target, step).legs;
            (ReadsBack(legs[0]) <==> IsSymbol(symbol)) && (ReadsBack(legs[1]) <==> IsSymbol(symbol))
  {
    hide ReadsBack, OnGrid, StrikeDown, StrikeUp, IsSymbol, ParseLeg, PlanText;
    CallSpreadShape(symbol, expiry, price, target, step);
    var legs := CallSpread(symbol, expiry, price, target, step).legs;
    ReadsBackOnGrid(legs[0], step);
    ReadsBackOnGrid(legs[1], step);
  }

  lemma ReadsBackOnGrid(leg: PlanLeg, step: Step)
    requires OnGrid(leg.strike, step) && step % CENT == 0
    ensures ReadsBack(leg) <==> IsSymbol(leg.symbol) && leg.strike >= 0
  {
    hide ParseLeg, PlanText, Parsed, IsSymbol;
    GridOfCents(leg.strike, step);
    LegRoundTrip(leg);
  }

  /** A put spread is read back when in addition the target is not negative; the engine does not rule that out, and
      then the short leg cannot even be parsed. */
  lemma PutSpreadReadsBack(symbol: string, expiry: IsoDate, price: real, target: real, step: Step)
    requires price > 0.0 && step % CENT == 0
    ensures var legs := PutSpread(symbol, expiry, price, target, step).legs;
            && (ReadsBack(legs[0]) <==> IsSymbol(symbol))
            && (ReadsBack(legs[1]) <==> IsSymbol(symbol) && target >= 0.0)
            && (IsSymbol(symbol) ==> (ParseLeg(PlanText(legs[1])).Some? <==> target >= 0.0))
  {
    hide ReadsBack, OnGrid, StrikeDown, StrikeUp, IsSymbol, ParseLeg, PlanText;
    PutSpreadShape(symbol, expiry, price, target, step);
    var legs := PutSpread(symbol, expiry, price, target, step).legs;
    ReadsBackOnGrid(legs[0], step);
    ReadsBackOnGrid(legs[1], step);
    if IsSymbol(symbol) {
      LegParsesIffNotNegative(legs[1]);
    }
  }

  // ---------- Parsed legs ----------

  function SizeOf(multiplier: int): nat {
    Max(1, multiplier)
  }

  function ScaleLegs(legs: seq<ParsedLeg>, multiplier: int): (scaled: seq<ParsedLeg>)
    ensures |scaled| == |legs|
    ensures forall i :: 0 <= i < |legs| ==> scaled[i] == legs[i].(quantity := legs[i].quantity * SizeOf(multiplier))
  {
    if SizeOf(multiplier) == 1 then legs
    else seq(|legs|, i requires 0 <= i < |legs| => legs[i].(quantity := legs[i].quantity * SizeOf(multiplier)))
  }

  /** The theoretical price of an option depends on its strike and right. */
  function LegValue(price: (real, Right) -> real): ParsedLeg -> real {
    (leg: ParsedLeg) => Signed(leg.side, leg.quantity) as real * price(leg.strike, leg.right)
  }

  method PricePlan(price: (real, Right) -> real, legs: seq<ParsedLeg>) returns (total: real)
    ensures total == Sum(LegValue(price), legs)
  {
    total := 0.0;
    for i := 0 to |legs|
      invariant total == Sum(LegValue(price), legs[..i])
    {
      var value := price(legs[i].strike, legs[i].right);
      var signed: int := if legs[i].side == Buy then legs[i].quantity else -(legs[i].quantity as int);
      assert legs[..i + 1][..i] == legs[..i];
      assert LegValue(price)(legs[i]) == signed as real * value;
      total := total + signed as real * value;
    }
    assert legs[..|legs|] == legs;
  }

  lemma ScaledLegValue(price: (real, Right) -> real, leg: ParsedLeg, n: nat)
    ensures LegValue(price)(leg.(quantity := leg.quantity * n)) == n as real * LegValue(price)(leg)
  {
    var q, v := Signed(leg.side, leg.quantity), price(leg.strike, leg.right);
    SignedTimes(leg.side, leg.quantity, n);
    assert (q * n) as real == q as real * n as real;
    assert (q as real * n as real) * v == n as real * (q as real * v);
  }

  lemma SignedTimes(side: LegSide, quantity: nat, n: nat)
    ensures Signed(side, quantity * n) == Signed(side, quantity) * n
  {
  }

  /** Trading more contracts multiplies the value of the plan. */
  lemma {:induction false} ScalingMultipliesTheValue(
      price: (real, Right) -> real, legs: seq<ParsedLeg>, multiplier: int)
    ensures Sum(LegValue(price), ScaleLegs(legs, multiplier))
         == SizeOf(multiplier) as real * Sum(LegValue(price), legs)
  {
    hide SizeOf, LegValue;
    var n := |legs| - 1;
    if legs == [] {
      assert ScaleLegs(legs, multiplier) == [];
    } else {
      ScalingMultipliesTheValue(price, legs[..n], multiplier);
      assert ScaleLegs(legs, multiplier)[..n] == ScaleLegs(legs[..n], multiplier);
      ScaledLegValue(price, legs[n], SizeOf(multiplier));
      DistributeSum(SizeOf(multiplier) as real, Sum(LegValue(price), legs[..n]), LegValue(price)(legs[n]));
    }
  }

  lemma DistributeSum(c: real, a: real, b: real)
    ensures c * (a + b) == c * a + c * b
  {
  }

  // ---------- Legs in the trade log ----------

  /** The strike as the trade log writes it; what is not a whole number has two decimals at most. */
  function LogStrike(strike: real): string
    requires strike >= 0.0
  {
    if strike == strike.Floor as real then Digits(strike.Floor) else CentsText(RoundHalfEven(strike * 100.0))
  }

  function LogText(leg: ParsedLeg): string
    requires leg.strike >= 0.0
  {
    LegText(leg.side, leg.quantity, leg.symbol, leg.expiry, LogStrike(leg.strike), leg.right)
  }

  lemma LogStrikeOfCents(cents: nat)
    ensures LogStrike(cents as real / 100.0) == CentsText(cents)
  {
    hide Digits, Fixed2, RoundHalfEven;
    CentsOfDollars(cents);
    RoundingIsUnique(cents as real / 100.0 * 100.0, cents);
  }

  lemma CentsOfDollars(cents: nat)
    ensures var strike := cents as real / 100.0;
            && strike * 100.0 == cents as real
            && strike.Floor == cents / 100
            && (strike == strike.Floor as real <==> cents % 100 == 0)
  {
    var strike, q, r := cents as real / 100.0, cents / 100, cents % 100;
    assert cents == 100 * q + r;
    assert strike == q as real + r as real / 100.0;
  }

  /** Every leg that was parsed from a plan and scaled is read back from the trade log. */
  lemma LoggedLegsReadBack(leg: PlanLeg, multiplier: int)
    requires IsSymbol(leg.symbol) && leg.strike >= 0
    ensures var parsed := ParseLeg(PlanText(leg));
            && parsed.Some?
            && parsed.value.strike >= 0.0
            && var scaled := ScaleLegs([parsed.value], multiplier)[0]; ParseLeg(LogText(scaled)) == Some(scaled)
  {
    hide ParseLeg, CentsText, CentsOf, FormatStrike, LegText, IsSymbol, LogStrike, SizeOf, IsIsoDate;
    var cents := CentsOf(leg.strike);
    FormattedStrike(leg.strike);
    OtherStrikesParse(leg.side, leg.quantity, leg.symbol, leg.expiry, cents, leg.right);
    LogStrikeOfCents(cents);
    OtherStrikesParse(leg.side, leg.quantity * SizeOf(multiplier), leg.symbol, leg.expiry, cents, leg.right);
  }

  // ---------- What the backtest makes of a signal ----------

  /** No spread to trade, a leg that does not parse, or the legs of a spread. */
  datatype Planned = NoSpread | Unparseable | Spread(structure: Structure, legs: seq<ParsedLeg>, expiry: int)

  function PlannedSpread(cfg: PlanConfig, dates: Dates, x: Signal): Planned {
    var plan := BuildPlan(cfg, dates, PlannedFor(cfg, x));
    if plan.structure != CallDebitSpread && plan.structure != PutDebitSpread then NoSpread
    else
      var long, short := ParseLeg(PlanText(plan.legs[0])), ParseLeg(PlanText(plan.legs[1]));
      if long.None? || short.None? then Unparseable
      else Spread(plan.structure, ScaleLegs([long.value, short.value], cfg.contracts),
                  dates.close(ExpiryDay(dates, x, cfg.directionalDays)))
  }

  predicate IsEntry(kind: SignalKind) {
    kind == TrendLong || kind == TrendShort
  }

  /** A leg of the signal's spread cannot be parsed: its symbol is not a word of capital letters, or the spread is
      one of puts with a negative target. */
  predicate HasBadLeg(cfg: PlanConfig, x: Signal) {
    var y := PlannedFor(cfg, x);
    IsEntry(y.kind) && (!IsReadable(y.symbol) || (y.kind == TrendShort && TargetOf(cfg, y) < 0.0))
  }

  /** What the backtest makes of a signal: nothing of exits and range signals, an error of an entry with a bad leg, and
      otherwise a spread that expires the configured number of trading days ahead. */
  lemma PlannedSpreadOutcome(cfg: PlanConfig, dates: Dates, x: Signal)
    ensures var p, y := PlannedSpread(cfg, dates, x), PlannedFor(cfg, x);
            && (p == NoSpread <==> !IsEntry(x.kind))
            && (p == Unparseable <==> HasBadLeg(cfg, x))
            && (p.Spread? ==>
                  && p.structure == (if y.kind == TrendLong then CallDebitSpread else PutDebitSpread)
                  && p.expiry == dates.close(ExpiryDay(dates, x, cfg.directionalDays)))
  {
    hide ParseLeg, PlanText, StrikeUp, StrikeDown, StrikeNearest, OnGrid, IsReadable, IsIsoDate, DefaultMove, SizeOf,
         TradingDays.ClosedForm;
    var y, step := PlannedFor(cfg, x), StepOf(cfg);
    if IsEntry(y.kind) {
      var expiry, t := dates.iso(ExpiryDay(dates, y, cfg.directionalDays)), TargetOf(cfg, y);
      CallSpreadShape(y.symbol, expiry, y.price, t, step);
      PutSpreadShape(y.symbol, expiry, y.price, t, step);
      var legs := BuildPlan(cfg, dates, y).legs;
      LegParses(legs[0]);
      LegParses(legs[1]);
    }
  }

  /** The mirrored target of a long signal is negative when the mirrored risk is large, and so is the plan in error. */
  lemma MirroredTarget(cfg: PlanConfig, x: Signal)
    requires x.kind == TrendLong
    ensures Mirrored(cfg, x).target.value < 0.0 <==> ReachOf(cfg, x) > x.price + 0.00005
  {
    hide ReachOf, RiskOf, Round4;
    FarTarget(x.price, ReachOf(cfg, x));
  }

  lemma FarTarget(price: real, reach: real)
    requires price > 0.0
    ensures Round4(price - MaxR(reach, price * 0.003)) < 0.0 <==> reach > price + 0.00005
  {
    hide Round4;
    Round4BelowZero(price - MaxR(reach, price * 0.003));
  }
}
