/** What option plans are, signal by signal, and what the parser of legs accepts, in terms of prices, dates and
    letters. */
module OptionPlanLaws {
  import opened OptionLegs
  import opened OptionPlans
  import opened Options
  import opened Rounding
  import opened SignalEngine
  import opened Sums
  import opened TradingDays

  // ---------- Plans of signals ----------

  /** Strikes go by the configured step, or by dollars. */
  function StepFor(cfg: PlanConfig): Step {
    if cfg.strikeStep > 0 then cfg.strikeStep else 1000000
  }

  function InDollars(strike: int): real {
    strike as real / 1000000.0
  }

  /** Two steps, or 0.3 percent of the price where that is more. */
  function LeastMove(cfg: PlanConfig, price: real): real {
    if 2.0 * InDollars(StepFor(cfg)) >= price * 0.003 then 2.0 * InDollars(StepFor(cfg)) else price * 0.003
  }

  /** The target of a directional plan: the signal's own, or a least move away from the price. */
  ghost predicate IsTarget(cfg: PlanConfig, x: Signal, target: real) {
    if x.target.Some? then target == x.target.value
    else target == if x.kind == TrendLong then x.price + LeastMove(cfg, x.price) else x.price - LeastMove(cfg, x.price)
  }

  /** The date some weekdays after that of the signal. */
  ghost predicate IsExpiry(dates: Dates, x: Signal, sessions: int, expiry: IsoDate) {
    exists day :: IsAdvance(dates.day(x.ts), sessions, day) && expiry == dates.iso(day)
  }

  /** The call spread of a long signal: it buys the strike next below the price and sells the one next above the
      target, or the strike above the bought one when that is not beyond it. */
  ghost predicate IsCallPlan(cfg: PlanConfig, dates: Dates, x: Signal, p: Plan, target: real) {
    && |p.legs| == 2 && IsSpread(p, CallDebitSpread, x.symbol, p.legs[0].expiry, Call)
    && IsExpiry(dates, x, cfg.directionalDays, p.legs[0].expiry)
    && var long, short, step := InDollars(p.legs[0].strike), InDollars(p.legs[1].strike), InDollars(StepFor(cfg));
       && long <= x.price < long + step
       && target <= short
       && (short < target + step || short == long + step)
       && long < short
  }

  /** The put spread of a short signal, the other way round. */
  ghost predicate IsPutPlan(cfg: PlanConfig, dates: Dates, x: Signal, p: Plan, target: real) {
    && |p.legs| == 2 && IsSpread(p, PutDebitSpread, x.symbol, p.legs[0].expiry, Put)
    && IsExpiry(dates, x, cfg.directionalDays, p.legs[0].expiry)
    && var long, short, step := InDollars(p.legs[0].strike), InDollars(p.legs[1].strike), InDollars(StepFor(cfg));
       && long - step < x.price <= long
       && short <= target
       && (short > target - step || short == long - step)
       && short < long
  }

  lemma TargetIsTarget(cfg: PlanConfig, x: Signal)
    requires x.kind == TrendLong || x.kind == TrendShort
    ensures IsTarget(cfg, x, TargetOf(cfg, x))
  {
  }

  lemma DollarsAgree(cfg: PlanConfig)
    ensures StepOf(cfg) == StepFor(cfg) && forall strike: int :: Dollars(strike) == InDollars(strike)
    ensures forall a: int, b: int :: a > b ==> InDollars(a) > InDollars(b)
    ensures forall a: int, b: int :: InDollars(a + b) == InDollars(a) + InDollars(b)
    ensures forall a: int, b: int :: InDollars(a - b) == InDollars(a) - InDollars(b)
  {
  }

  lemma ExpiryIsExpiry(dates: Dates, x: Signal, sessions: int)
    ensures IsExpiry(dates, x, sessions, dates.iso(ExpiryDay(dates, x, sessions)))
  {
    hide IsAdvance, ClosedForm;
    ClosedFormAdvances(dates.day(x.ts), sessions);
  }

  /** The plan of a directional signal. */
  lemma DirectionalPlan(cfg: PlanConfig, dates: Dates, x: Signal)
    requires x.kind == TrendLong || x.kind == TrendShort
    ensures exists target :: IsTarget(cfg, x, target) &&
              if x.kind == TrendLong then IsCallPlan(cfg, dates, x, BuildPlan(cfg, dates, x), target)
              else IsPutPlan(cfg, dates, x, BuildPlan(cfg, dates, x), target)
  {
    hide CallSpread, PutSpread, TargetOf, IsTarget, ExpiryDay, StepOf, Dollars, StepFor, InDollars, OnGrid;
    var target, expiry := TargetOf(cfg, x), dates.iso(ExpiryDay(dates, x, cfg.directionalDays));
    TargetIsTarget(cfg, x);
    ExpiryIsExpiry(dates, x, cfg.directionalDays);
    DollarsAgree(cfg);
    CallSpreadShape(x.symbol, expiry, x.price, target, StepOf(cfg));
    PutSpreadShape(x.symbol, expiry, x.price, target, StepOf(cfg));
    var p := BuildPlan(cfg, dates, x);
    if x.kind == TrendLong {
      assert p == CallSpread(x.symbol, expiry, x.price, target, StepOf(cfg));
      assert IsCallPlan(cfg, dates, x, p, target);
    } else {
      assert p == PutSpread(x.symbol, expiry, x.price, target, StepOf(cfg));
      assert IsPutPlan(cfg, dates, x, p, target);
    }
  }

  /** The plan of a range signal: a butterfly of calls around a strike nearest to the center, or to the price without
      one, with wings as wide as configured, but of a step at least. */
  lemma RangePlan(cfg: PlanConfig, dates: Dates, x: Signal)
    requires x.kind == RangeZone
    ensures var p, step := BuildPlan(cfg, dates, x), StepFor(cfg);
            && p.structure == CallButterfly && |p.legs| == 3
            && IsExpiry(dates, x, cfg.rangeDays, p.legs[0].expiry)
            && var e, low, body, high := p.legs[0].expiry, p.legs[0].strike, p.legs[1].strike, p.legs[2].strike;
               && p.legs == [PlanLeg(Buy, 1, x.symbol, e, low, Call), PlanLeg(Sell, 2, x.symbol, e, body, Call),
                             PlanLeg(Buy, 1, x.symbol, e, high, Call)]
               && body - low == high - body == (if cfg.wingWidth > step then cfg.wingWidth else step)
               && var center := if x.center.Some? then x.center.value else x.price;
                  2.0 * InDollars(body) - InDollars(step) <= 2.0 * center <= 2.0 * InDollars(body) + InDollars(step)
  {
    hide Butterfly, ExpiryDay, StepOf, Dollars, StepFor, InDollars, OnGrid;
    DollarsAgree(cfg);
    ExpiryIsExpiry(dates, x, cfg.rangeDays);
    ButterflyShape(x.symbol, dates.iso(ExpiryDay(dates, x, cfg.rangeDays)),
                   if x.center.Some? then x.center.value else x.price, cfg);
  }

  /** An exit closes a spread and has no legs. */
  lemma ExitPlan(cfg: PlanConfig, dates: Dates, x: Signal)
    requires x.kind == ExitLong || x.kind == ExitShort
    ensures BuildPlan(cfg, dates, x) == Plan(CloseSpread, [])
  {
  }

  // ---------- Inverted signals ----------

  /** The risk of a signal: the distance of its stop, or without one a step and 0.3 percent of the price at least. */
  function RiskFor(cfg: PlanConfig, x: Signal): real {
    var least := if InDollars(cfg.strikeStep) >= x.price * 0.003 then InDollars(cfg.strikeStep) else x.price * 0.003;
    if x.stop.None? then least
    else if x.price >= x.stop.value then x.price - x.stop.value
    else x.stop.value - x.price
  }

  /** How far away the target of the inverted signal is. */
  function MoveFor(cfg: PlanConfig, x: Signal): real {
    var reach := RiskFor(cfg, x) * cfg.minRr;
    if reach >= x.price * 0.003 then reach else x.price * 0.003
  }

  /** Inversion turns a directional signal into one of the other side, with the stop as far on the other side, but not
      below a cent, and the target at the reward ratio; and it leaves every other signal as it is. */
  lemma InvertedSignal(cfg: PlanConfig, x: Signal)
    ensures var y := PlannedFor(cfg, x);
            if cfg.invert && x.kind == TrendLong then
              y == x.(kind := TrendShort, stop := Some(Round4(x.price + RiskFor(cfg, x))),
                      target := Some(Round4(x.price - MoveFor(cfg, x))))
            else if cfg.invert && x.kind == TrendShort then
              var stop := x.price - RiskFor(cfg, x);
              y == x.(kind := TrendLong, stop := Some(Round4(if stop > 0.01 then stop else 0.01)),
                      target := Some(Round4(x.price + MoveFor(cfg, x))))
            else y == x
  {
    hide Round4;
    RisksAgree(cfg, x);
    hide RiskOf, ReachOf, RiskFor, MoveFor;
  }

  lemma RisksAgree(cfg: PlanConfig, x: Signal)
    ensures RiskOf(cfg, x) == RiskFor(cfg, x)
    ensures MaxR(ReachOf(cfg, x), x.price * 0.003) == MoveFor(cfg, x)
  {
    DollarsAgree(cfg);
  }

  // ---------- Legs that are traded ----------

  lemma PlannedLegs(cfg: PlanConfig, dates: Dates, x: Signal)
    requires PlannedSpread(cfg, dates, x).Spread?
    ensures var plan := BuildPlan(cfg, dates, PlannedFor(cfg, x));
            && |plan.legs| == 2
            && ParseLeg(PlanText(plan.legs[0])).Some? && ParseLeg(PlanText(plan.legs[1])).Some?
            && PlannedSpread(cfg, dates, x).legs
               == ScaleLegs([ParseLeg(PlanText(plan.legs[0])).value, ParseLeg(PlanText(plan.legs[1])).value],
                            cfg.contracts)
  {
    hide ParseLeg, PlanText, StrikeUp, StrikeDown, StrikeNearest, TargetOf, Mirrored, ExpiryDay, ScaleLegs;
  }

  lemma PlanReadsBack(cfg: PlanConfig, dates: Dates, y: Signal)
    requires (y.kind == TrendLong || y.kind == TrendShort) && IsSymbol(y.symbol) && StepOf(cfg) % CENT == 0
    ensures var plan := BuildPlan(cfg, dates, y);
            && |plan.legs| == 2 && ReadsBack(plan.legs[0])
            && (ReadsBack(plan.legs[1]) <==> y.kind == TrendLong || TargetOf(cfg, y) >= 0.0)
            && (ParseLeg(PlanText(plan.legs[1])).Some? ==> ReadsBack(plan.legs[1]))
            && plan.legs[0] == PlanLeg(Buy, 1, y.symbol, plan.legs[0].expiry, plan.legs[0].strike, plan.legs[0].right)
            && plan.legs[1] == PlanLeg(Sell, 1, y.symbol, plan.legs[1].expiry, plan.legs[1].strike, plan.legs[1].right)
  {
    hide ParseLeg, PlanText, StrikeUp, StrikeDown, IsSymbol, TargetOf, ExpiryDay, ReadsBack, StepOf, OnGrid;
    var expiry, t := dates.iso(ExpiryDay(dates, y, cfg.directionalDays)), TargetOf(cfg, y);
    if y.kind == TrendLong {
      CallSpreadReadsBack(y.symbol, expiry, y.price, t, StepOf(cfg));
    } else {
      PutSpreadReadsBack(y.symbol, expiry, y.price, t, StepOf(cfg));
    }
  }

  /** The legs that the backtest trades for a signal of a symbol in capital letters, with steps of whole cents: those of
      the plan, one bought and one sold, times the number of contracts, but at least one. */
  lemma TradedLegs(cfg: PlanConfig, dates: Dates, x: Signal)
    requires PlannedSpread(cfg, dates, x).Spread? && IsSymbol(x.symbol) && StepOf(cfg) % CENT == 0
    ensures var plan := BuildPlan(cfg, dates, PlannedFor(cfg, x));
            var n := if cfg.contracts > 1 then cfg.contracts else 1;
            && |plan.legs| == 2
            && PlannedSpread(cfg, dates, x).legs
               == [ParsedLeg(Buy, n, x.symbol, plan.legs[0].expiry, InDollars(plan.legs[0].strike),
                             plan.legs[0].right),
                   ParsedLeg(Sell, n, x.symbol, plan.legs[1].expiry, InDollars(plan.legs[1].strike),
                             plan.legs[1].right)]
  {
    hide ParseLeg, PlanText, BuildPlan, PlannedFor, PlannedSpread, IsSymbol, ScaleLegs, InDollars, Dollars, StepOf;
    var y := PlannedFor(cfg, x);
    DollarsAgree(cfg);
    PlannedLegs(cfg, dates, x);
    InvertedKind(cfg, dates, x);
    PlanReadsBack(cfg, dates, y);
  }

  /** A traded spread expires at the close of the day that its legs name: the configured number of weekdays after that
      of the signal. */
  lemma TradedExpiry(cfg: PlanConfig, dates: Dates, x: Signal)
    requires PlannedSpread(cfg, dates, x).Spread?
    ensures var plan := BuildPlan(cfg, dates, PlannedFor(cfg, x));
            exists day :: IsAdvance(dates.day(x.ts), cfg.directionalDays, day)
              && PlannedSpread(cfg, dates, x).expiry == dates.close(day)
              && plan.legs != [] && forall i :: 0 <= i < |plan.legs| ==> plan.legs[i].expiry == dates.iso(day)
  {
    hide ParseLeg, PlanText, IsAdvance, ClosedForm, HasBadLeg, TargetOf, StrikeUp, StrikeDown;
    InvertedKind(cfg, dates, x);
    ClosedFormAdvances(dates.day(x.ts), cfg.directionalDays);
    assert IsAdvance(dates.day(x.ts), cfg.directionalDays, ExpiryDay(dates, x, cfg.directionalDays));
  }

  lemma InvertedKind(cfg: PlanConfig, dates: Dates, x: Signal)
    requires PlannedSpread(cfg, dates, x).Spread?
    ensures var y := PlannedFor(cfg, x); y.symbol == x.symbol && (y.kind == TrendLong || y.kind == TrendShort)
  {
    hide ParseLeg, PlanText, BuildPlan, HasBadLeg, RiskOf, ReachOf;
    PlannedSpreadOutcome(cfg, dates, x);
  }

  /** What is bought and what is sold of a plan, at the prices of its options. */
  function Worth(price: (real, Right) -> real, side: LegSide): ParsedLeg -> real {
    (leg: ParsedLeg) => if leg.side == side then leg.quantity as real * price(leg.strike, leg.right) else 0.0
  }

  /** A plan is worth what it buys less what it sells. */
  lemma {:induction false} PlanIsBoughtLessSold(price: (real, Right) -> real, legs: seq<ParsedLeg>)
    ensures Sum(LegValue(price), legs) == Sum(Worth(price, Buy), legs) - Sum(Worth(price, Sell), legs)
  {
    if legs != [] {
      var leg := legs[|legs| - 1];
      PlanIsBoughtLessSold(price, legs[..|legs| - 1]);
      NegativeTimes(leg.quantity, price(leg.strike, leg.right));
    }
  }

  lemma NegativeTimes(q: int, v: real)
    ensures (-q) as real * v == -(q as real * v)
  {
  }

  // ---------- The parser ----------

  predicate IsDigitText(s: string) {
    s != "" && forall i :: 0 <= i < |s| ==> '0' <= s[i] <= '9'
  }

  predicate IsCapitalText(s: string) {
    s != "" && forall i :: 0 <= i < |s| ==> 'A' <= s[i] <= 'Z'
  }

  /** A whole number, or two of them with a dot between. */
  ghost predicate IsDecimalText(s: string) {
    IsDigitText(s) || exists a, b :: IsDigitText(a) && IsDigitText(b) && s == a + "." + b
  }

  lemma DecimalsAreTexts(s: string)
    ensures IsDecimal(s) <==> IsDecimalText(s)
  {
    hide IsDecimal;
    if IsDigitText(s) {
      WholeText(s);
    }
    if a, b :| IsDigitText(a) && IsDigitText(b) && s == a + "." + b {
      FractionText(a, b);
    }
    if IsDecimal(s) && !IsDigitText(s) {
      DecimalHasDot(s);
    }
  }

  lemma WholeText(s: string)
    requires IsDigitText(s)
    ensures IsDecimal(s) && DecimalValue(s) == NatOf(s) as real
  {
    WholeValue(s);
  }

  lemma FractionText(a: string, b: string)
    requires IsDigitText(a) && IsDigitText(b)
    ensures var s := a + "." + b;
            IsDecimal(s) && DecimalValue(s) * Pow10(|b|) as real == (NatOf(a) * Pow10(|b|) + NatOf(b)) as real
  {
    hide NatOf, Pow10, IsDecimal, DecimalValue;
    FractionValue(a, b);
    Undivided(NatOf(a), NatOf(b), Pow10(|b|));
  }

  lemma DecimalHasDot(s: string)
    requires IsDecimal(s) && !IsDigitText(s)
    ensures exists a, b :: IsDigitText(a) && IsDigitText(b) && s == a + "." + b
  {
    var k := DotAt(s);
    if k == |s| {
      assert s[..k] == s;
    } else {
      assert s == s[..k] + "." + s[k + 1..];
      assert IsDigitText(s[..k]) && IsDigitText(s[k + 1..]);
    }
  }

  lemma Undivided(a: nat, b: nat, c: nat)
    requires c > 0
    ensures (a as real + b as real / c as real) * c as real == (a * c + b) as real
  {
    assert b as real / c as real * c as real == b as real;
    assert (a * c) as real == a as real * c as real;
  }

  /** The parser accepts exactly six words: a side, a whole number, capital letters, a date, a decimal number and a
      right; and returns what they say. */
  lemma ParserAccepts(text: string)
    ensures var ws, leg := Words(text), ParseLeg(text);
            && (leg.Some? <==>
                  && |ws| == 6
                  && (ws[0] == "BUY" || ws[0] == "SELL") && IsDigitText(ws[1]) && IsCapitalText(ws[2])
                  && IsIsoDate(ws[3]) && IsDecimalText(ws[4]) && (ws[5] == "CALL" || ws[5] == "PUT"))
            && (leg.Some? ==>
                  && IsDecimal(ws[4]) && IsDigitText(ws[1])
                  && leg.value.side == (if ws[0] == "BUY" then Buy else Sell)
                  && leg.value.quantity == NatOf(ws[1])
                  && leg.value.symbol == ws[2] && leg.value.expiry == ws[3]
                  && leg.value.strike == DecimalValue(ws[4])
                  && leg.value.right == (if ws[5] == "CALL" then Call else Put))
  {
    hide Words, NatOf, DecimalValue, IsDecimal, IsDecimalText, IsIsoDate;
    if |Words(text)| == 6 {
      DecimalsAreTexts(Words(text)[4]);
    }
  }
}
