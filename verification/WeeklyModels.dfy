/** Values of the weekly corridor: configuration, bars, butterfly layers, records and the context. */
module WeeklyModels {
  import opened Options

  const DAY_SECONDS := 86400
  const HOUR_SECONDS := 3600

  /** A New York wall clock reading. Day 0 is a Monday, `clock` is seconds since local midnight,
      and `offset` is what has to be added to reach UTC: four hours in summer and five in winter. */
  datatype RawStamp = RawStamp(day: int, clock: int, offset: int) {
    predicate Valid() {
      0 <= clock < DAY_SECONDS && (offset == 4 * HOUR_SECONDS || offset == 5 * HOUR_SECONDS)
    }

    function Instant(): int {
      day * DAY_SECONDS + clock + offset
    }

    /** Monday is 0, as in Python. */
    function Weekday(): int {
      day % 7
    }

    /** The week key: the Monday on or before the local date. */
    function Week(): int {
      day - day % 7
    }
  }

  type Stamp = s: RawStamp | s.Valid() witness RawStamp(0, 0, 14400)

  /** `a` is not after `b`. Clocks change at two in the morning, so local dates never run backwards. */
  predicate NotAfter(a: Stamp, b: Stamp) {
    a.Instant() <= b.Instant() && a.day <= b.day
  }

  lemma WeeksFollowDays(a: Stamp, b: Stamp)
    requires a.day <= b.day
    ensures a.Week() <= b.Week()
  {
    var qa, qb := a.day / 7, b.day / 7;
    assert a.Week() == 7 * qa && b.Week() == 7 * qb;
    assert qa <= qb;
  }

  /** Option multipliers divide the commission, so zero is not one. */
  type Multiplier = m: int | m != 0 witness 100

  datatype Config = Config(
    centerRounding: real,
    butterflyWidth: real,
    centerSpacing: real,
    centerTolerance: real,
    maxActive: int,
    maxAdjustments: int,
    entryStartWeekday: int,
    entryEndWeekday: int,
    tradingStart: int,
    tradingEnd: int,
    defaultDte: int,
    minRemainingDte: int,
    maxHoldDays: int,
    forcedExitWeekday: int,
    forcedExitTime: int,
    slippage: real,
    commission: real,
    multiplier: Multiplier,
    debitPct: real,
    peakPct: real,
    floorPct: real)

  /** The configuration a run gets when no option is given. */
  const DEFAULT_CONFIG := Config(
    5.0, 50.0, 50.0, 50.0, 4, 1, 0, 1, 10 * HOUR_SECONDS, 15 * HOUR_SECONDS + 1800,
    12, 5, 7, 4, 15 * HOUR_SECONDS, 0.03, 0.65, 100, 0.22, 0.85, 0.05)

  datatype Regime = Range | TrendUp | TrendDown | Neutral | EventBlocked

  datatype Snapshot = Snapshot(regime: Regime, eventBlocked: bool) {
    predicate IsTrend() {
      regime == TrendUp || regime == TrendDown
    }

    predicate IsRange() {
      regime == Range
    }
  }

  datatype Center = Center(price: real, toleranceLow: real, toleranceHigh: real)

  /** One decision bar, with what the classifier and the center estimator said about it. */
  datatype Bar = Bar(symbol: string, stamp: Stamp, price: real, regime: Snapshot, center: Option<Center>)

  datatype State = Idle | Active | Adjusted | Aborted | Exited

  datatype LayerKind = Initial | Adjustment

  /** What a butterfly layer is from the bar that opened it; its money lives in the engine. */
  datatype Layer = Layer(
    id: int, kind: LayerKind, week: int, center: real, width: real,
    lower: real, body: real, upper: real, createdAt: Stamp, dte: int)

  datatype ActionKind = DeployInitial | AddAdjustment | Abort | ExitHold | ExitDte | ExitWeek | SkipEventWeek

  predicate IsOpening(kind: ActionKind) {
    kind == DeployInitial || kind == AddAdjustment
  }

  predicate IsClosing(kind: ActionKind) {
    kind == Abort || kind == ExitHold || kind == ExitDte || kind == ExitWeek
  }

  /** Money the engine adds to an action after the bar. */
  datatype Cash =
    | NoCash
    | Paid(entryCost: real, entryDebit: real, entryFriction: real)
    | Booked(closeValue: real, grossCloseValue: real, realized: real, grossRealized: real, closeFriction: real)

  datatype Action = Action(
    stamp: Stamp, symbol: string, week: int, kind: ActionKind, state: State, price: real,
    center: Option<real>, layer: Option<Layer>, cash: Cash)

  datatype Transition = Transition(
    stamp: Stamp, symbol: string, week: int, from: State, to: State, regime: Regime, price: real,
    center: Option<real>, activeLayers: int, adjustments: int)

  /** The context of the machine, without the realized P&L that only the engine touches. */
  datatype Context = Context(
    state: State,
    week: Option<int>,
    center: Option<real>,
    toleranceLow: Option<real>,
    toleranceHigh: Option<real>,
    active: seq<Layer>,
    nextId: int,
    deployedAt: Option<Stamp>,
    adjustments: int,
    lastChange: Option<Stamp>,
    eventSkipped: bool)

  const INITIAL_CONTEXT := Context(Idle, None, None, None, None, [], 1, None, 0, None, false)
}
