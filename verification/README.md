# Models and proofs for the weekly corridor and the legacy signal pipeline

This project models three parts of the repository in Dafny and proves what holds on every run of them.

1. **The weekly corridor** (`weekly_corridor/`). A five-state machine opens, adjusts and closes layers of butterflies,
   one decision bar at a time. The backtest engine never reads the machine's log to do its accounting: it compares layer
   ids before and after each bar. `WeeklyStep` is the step as a function, `WeeklyMachine` is the object that the source
   has, proved equal to it, and `WeeklyEngine` is the backtest loop. The other `Weekly*` modules prove laws about whole
   runs: what the log says, what money was made, what a week can see, what the pricer does, what the summary means.
2. **The greedy adoption of butterflies** (`legacy/adopt_paper_butterfly.py`). `ButterflyAdoption` is the algorithm that
   changes a counter of strikes in place; `GreedyButterflies` says what a complete greedy decomposition is and proves
   its laws; `FittingButterflies` says exactly when it gives back the butterflies that a book was made of, and when it
   explains a book in full; `SeparateButterflies` and `StackedButterflies` are simpler cases, `AdoptionLimits` is about
   whole accounts, `AdoptionOrder` says in strikes and quantities which structures come first, and `StrikeBook` is the
   counter.
3. **The legacy signal pipeline** (`legacy/`). `BarStore` keeps the newest bars of each symbol, `Indicators` computes
   candles, averages, momentum and the regime of a frame, `SignalEngine` holds one position per symbol, `SignalPipeline`
   describes the stream of signals of whole runs, `SignalSummary` and `OptionSimulator` match that stream into trades,
   `OptionPlans` and `OptionLegs` write legs as text and read them back, `TradingDays` advances dates, `OptionBacktest`
   runs the simulator on the stream with the plans of the signals, and `NegativeTargets` is one run in full.
   `IndicatorLaws`, `SignalReasons`, `OptionPlanLaws` and `OptionValues` say in terms of prices, times and quantities
   what the indicators, the signals, the plans and the values of the trades are.

Money and prices are exact reals. Strikes that the source rounds to six decimals are integers in millionths. The center
estimator, the volatility estimate and the option price are arbitrary inputs, and so is the reading of a frame, of which
`Indicators` is the one the source has: the theorems hold whatever they say. A clock reading of the weekly corridor is a
New York day number (day 0 is a Monday), seconds since midnight and an offset of four or five hours; the legacy pipeline
takes the local day, the opening instant and regular hours as functions of the instant, and a theorem that needs local
days to follow the clock says so. A value that the source may leave out is an `Option`, and an indicator that is not a
number is `None`, which fails every comparison. An error that the source raises is `None` or `Failed`.

`dafny verify dfyconfig.toml` checks the whole project.

## What the code does not do

Some statements one would expect are false. The code is modelled as it is, and the exact condition is proved.

- `weekly_corridor/README.md` promises a low-DTE exit. With the default configuration neither EXIT_DTE nor EXIT_HOLD is
  ever taken, because a corridor never outlives its week (`WeeklyExits.DefaultsNeverTakeHoldOrDteExits`). For every
  configuration `WeeklyExits.ExitsAreTakenIff` says exactly when some run of bars that follow one another in time takes
  them. Both need an entry window that can be entered at all, and before the last second of a week. EXIT_DTE is taken by
  some run if and only if, further, the minimum DTE is not negative and the default DTE exceeds it by at most six days
  less the first weekday of the entry window, or by one more day when the window opens before one o'clock: the week in
  which summer time ends is an hour longer. EXIT_HOLD is taken by some run if and only if, further, the holding limit is
  at most five days less that weekday (zero days from Saturday on), and the DTE that remains after the fewest whole days
  in which the limit can be reached is above the minimum; these are two days less than the limit, or one day less when
  the window closes at midnight, and never fewer than none.
- The limits per week need not hold. Cut the bars into the longest stretches of one week: on any run there is one
  corridor for each stretch with a deploying bar and one skip for each with an early blocked bar
  (`WeeklyStretches.AccountOfWeek`), so that the limits of a week hold if and only if at most one stretch deploys and at
  most one skips (`WeeklyStretches.WeekIsSafeIffOneStretch`). Bars in time order have one stretch a week
  (`WeeklyCounts.EveryWeekIsSafe`), but the decision frame is sorted by symbol first, and a frame of two symbols can
  come back to a week (`WeeklyCounts.TimeOrderIsNeeded`). The invariant, the log, the ledger and the equity laws hold
  in any order.
- The initial bodies can coincide: where there are several, on a center that is a multiple of the rounding increment
  they differ if and only if the spacing is more than half the increment, or exactly half of it and the multiple is odd,
  because `round` sends ties to even (`WeeklySafety.InitialBodiesDistinct`). On a run with such centers no two open
  layers ever share a body if and only if that holds of each center it deploys on
  (`WeeklySafety.OpenBodiesAreDistinct`).
- A mark does not always fall away from the center: it does if and only if the peak is not below the cost, or the inside
  formula stays under the floor (`WeeklyPricer.MarkFallsAwayFromCenter`); with a peak of a tenth of the width it does
  not (`WeeklyPricer.MarksCanRise`).
- Greedy adoption can fail on an account that consists of long butterflies only, as on three of them at ordinary strikes
  (`AdoptionLimits.AccountCanBeStranded`) or on an initial corridor of three as far apart as they are wide
  (`AdoptionLimits.AdjacentCorridorIsNotAdopted`). It gives the butterflies of any account back if and only if they fit:
  each triple of strikes has, in the legs of those butterflies that do not come before it in the selection order, room
  for just the lots with which it is one of them, and for none if it is not
  (`AdoptionLimits.ButterflyAccountsAreAdopted`). An account is accepted, without leftovers, if and only if each of its
  groups consists of some butterflies that fit (`AdoptionLimits.AcceptedIffExplained`); these need not be its own
  (`AdoptionLimits.AccountCanBeAcceptedAsAnother`). Butterflies of different widths on one body always fit
  (`StackedButterflies.StackedButterfliesFit`); where the bodies are no other butterfly's strikes, fitting is that every
  triple that is none of the butterflies loses a strike to the ones selected before it
  (`SeparateButterflies.FitsIffClear`).
- A short signal can carry a target below zero: exactly when the risk times the reward ratio exceeds the price
  (`SignalEngine.ShortTargetsBelowZero`), as in a run with all default settings
  (`NegativeTargets.ShortTargetsCanBeNegative`). Then the short leg of its put spread does not parse, and an option
  backtest ends in an error if and only if it has such a signal (`OptionBacktest.NegativeTargetsEndTheBacktest`), or in
  general a signal with a leg that cannot be read (`OptionBacktest.BacktestTradesAreSound`).
- A leg survives printing and parsing if and only if its symbol is in capital letters and its strike is a non-negative
  number of whole cents (`OptionLegs.LegRoundTrip`).

## Model

| member | source | states |
|---|---|---|
| `WeeklyMachine.Machine.ProcessBar` | weekly_corridor/state_machine.py:34-214 | The method, with its assignments in the source's order, moves the context, the transitions and the actions exactly as the step function; the realized P&L is untouched; a layer that stays open is the same object, a new one has a new id |
| `WeeklyMachine.Machine.EnterWeek` | weekly_corridor/state_machine.py:65-133 | An idle machine records one skip in a blocked week, deploys on a range bar inside the entry window, or does nothing |
| `WeeklyMachine.Machine.DeployCorridor` | weekly_corridor/state_machine.py:84-133 | Deploying sets center, tolerances, deployment time, counters and ids together and leaves one record for each layer |
| `WeeklyMachine.Machine.ManageWeek` | weekly_corridor/state_machine.py:135-212 | Trend abort comes before a due exit, which comes before an adjustment; an adjustment on a body that is taken does nothing |
| `WeeklyMachine.Machine.CloseLayers` | weekly_corridor/state_machine.py:260-291 | One closing record for each open layer, in order, and then no open layer |
| `WeeklyMachine.Machine.Reset` | weekly_corridor/state_machine.py:216-226 | A new week forgets everything but the next layer id and the realized P&L |
| `WeeklyMachine.Machine.Transit` | weekly_corridor/state_machine.py:293-320 | The transition names the old and the new state and the counts at that moment |
| `WeeklyMachine.Machine.BuildInitial` | weekly_corridor/strategy.py:103-128 | The loop builds exactly the initial layers, as new objects |
| `WeeklyInvariants.StepKeepsInv` | weekly_corridor/state_machine.py:34-226 | From any context with the invariant, a bar leaves it: the state matches the open layers, ids are the latest ones in order, the layer count is initial count plus adjustments and within the cap, everything open belongs to one week, and that week is the bar's week |
| `WeeklyInvariants.LayersAfterStep` | weekly_corridor/state_machine.py:50-212 | After a bar the open layers are none, the same, a fresh corridor, or the same plus one on a free body |
| `WeeklyInvariants.StepRecordsAreOfBar` | weekly_corridor/state_machine.py:68-212 | Each record carries the bar's time, price and week, and names a layer exactly when it opens or closes one |
| `WeeklyRuns.RunKeepsInv` | weekly_corridor/state_machine.py:27-226 | The invariant at every reachable state of every run |
| `WeeklyRuns.StepConserves` | weekly_corridor/state_machine.py:50-212 | In one bar: closed then still open equals open before then newly opened, in this order; only layers open before are closed; opened ids continue the numbering |
| `WeeklyRuns.LogOpensAndClosesInOrder` | weekly_corridor/state_machine.py:50-212 | Over a run the log opens ids 1, 2, 3, ..; it closes a prefix of them in the same order, and the rest is open; no id is used twice |
| `WeeklyRuns.LogReplaysToActiveLayers` | weekly_corridor/state_machine.py:67-212 | Folding the log never meets a reused id or a close without an open, and gives exactly the active id set after every bar |
| `WeeklySafety.StepTakesDueActions` | weekly_corridor/state_machine.py:62-258 | For each kind of action: a bar takes it if and only if its condition on the context before the bar holds, with all earlier tests failing |
| `WeeklyTransitions.BarTransitions` | weekly_corridor/state_machine.py:50-214 | From any context with the invariant, the transitions of a bar lead from the state before it to the state after it: idle to active, or open to adjusted, aborted or exited, one at most; a bar of another week first exits what is open, leaves the machine idle, and may deploy. Each names the time, symbol, week, regime and price of the bar |
| `WeeklyTransitions.TransitionsMatchActions` | weekly_corridor/state_machine.py:67-212 | On every bar there is a transition to ACTIVE, ADJUSTED, ABORTED or EXITED if and only if the bar deploys, adjusts, aborts or exits, and each record carries that state |
| `WeeklyTransitions.RecordsTellCenter` | weekly_corridor/state_machine.py:67-212 | On every bar a deployment or a skip records the center of the bar, and any other record that of the corridor before it |
| `WeeklyTransitions.TransitionsArePath` | weekly_corridor/state_machine.py:293-320 | The transitions of every run are a path from IDLE to the state of the machine; each starts where the one before it ended, or idle in a new week after a closing |
| `WeeklyTransitions.RunRemembers` | weekly_corridor/state_machine.py:65-133 | At every moment of a run: an idle machine has no center, tolerances, deployment time or layers, and has skipped its week only if a blocked bar of that week came in the entry window; any other context has the center, tolerances and time of a range bar of its week in the entry window, is not marked as skipped, and last changed with the last transition |
| `WeeklySafety.DeployedLayersSitOnTheirStrikes` | weekly_corridor/strategy.py:97-128 | A deployment opens the configured number of layers, on the rounded center and one spacing to each side, in order, with symmetrical wings |
| `WeeklySafety.AdjustmentAddsOneLayer` | weekly_corridor/state_machine.py:168-190 | An adjustment adds one layer on the rounded price and changes no other layer, nor the center, nor the deployment time |
| `WeeklySafety.TakenMeansNear` | weekly_corridor/state_machine.py:177-178 | A body of an open layer is taken, and one more than a hundredth of a cent from all of them is free |
| `WeeklySafety.KeysAreFine` | weekly_corridor/state_machine.py:177-178 | Bodies two hundredths of a cent apart never share a key |
| `WeeklyExits.EmittedWasDue` | weekly_corridor/state_machine.py:50-214 | Whatever kind of action a run emits was due on one of its bars, in the context that the bars before it lead to |
| `WeeklyExits.HoldAndDteExitsAreNeverTaken` | weekly_corridor/state_machine.py:241-258 | On no run is EXIT_HOLD taken with a limit above five days less the first entry weekday, nor EXIT_DTE with a margin of more than six days less it (seven when the entry window opens within an hour of midnight), nor with a negative minimum |
| `WeeklyExits.DefaultsNeverTakeHoldOrDteExits` | weekly_corridor/config.py:28-40 | The default configuration is beyond both bounds, so neither exit is ever taken |
| `WeeklyExits.HoldAndDteBoundsAreSharp` | weekly_corridor/state_machine.py:149-166 | From any open corridor, a holding limit of five days less the weekday of its deployment is met from Friday on, and a DTE margin of six less it is used up on Sunday |
| `WeeklyExits.HoldAndDteBoundsAreReached` | weekly_corridor/state_machine.py:62-166 | For every configuration that can enter, explicit runs of two bars take EXIT_DTE and EXIT_HOLD wherever their conditions allow: from the opening of the window to the end of Sunday over a clock change, and from the closing of the window to midnight of the last day of the holding limit, or from one second to the next |
| `WeeklyExits.ExitsAreTakenIff` | weekly_corridor/state_machine.py:241-258 | For every configuration, over all runs of bars that are each later than the one before and whose clocks change early on Sundays only: some run takes EXIT_DTE if and only if the window can be entered before the last second of a week and the margin to expiry can be used up in the week; some run takes EXIT_HOLD if and only if the window can be entered so, the limit fits into the week, and the margin outlasts it |
| `WeeklyExits.ExitsAreTakenOnAnyClockIff` | weekly_corridor/state_machine.py:241-258 | The same equivalences over all lists of bars whatever, in any order and on any clocks, where nothing needs to be later; for EXIT_HOLD where the entry window closes after midnight and by eleven in the evening |
| `WeeklyExits.BusinessDaysOfOneWeek` | weekly_corridor/strategy.py:36-37 | Within one week the business days between two dates are counted in closed form, and are at most five |
| `WeeklyExits.ElapsedDaysOfOneWeek` | weekly_corridor/state_machine.py:241-245 | From a weekday to the end of its week at most seven whole days less the weekday elapse, across a clock change too, and at most six less it from one o'clock on |
| `Rounding.RoundStrikeIsNearestMultiple` | weekly_corridor/strategy.py:97-100 | A rounded strike is a multiple of the increment and at most half an increment from the price |
| `Rounding.Round4IsNearest` | legacy/strategy.py:697-698 | A stop or target as shown is a whole number of ten-thousandths, at most half of one away |
| `WeeklySafety.InitialBodiesDistinct` | weekly_corridor/strategy.py:97-114 | On a rounded center the initial bodies, however many there are, are distinct if and only if there is one at most, or the spacing exceeds half the increment, or is half of it on an odd multiple |
| `WeeklySafety.OpenBodiesAreDistinct` | weekly_corridor/state_machine.py:168-181 | On a run with rounded centers no two open layers share a body at any time if and only if the spacing separates the bodies of each deployment of the run; adjustments never repeat a body |
| `WeeklyStretches.StretchesAreMaximal` | weekly_corridor/state_machine.py:50-60 | The stretches are the bars in their order, none is empty, each is of one week and neighbours are of different weeks |
| `WeeklyStretches.WeekIsSumOfStretches` | weekly_corridor/state_machine.py:50-214 | What the log of any run says about a week is the sum of the accounts of its stretches |
| `WeeklyStretches.AccountOfWeek` | weekly_corridor/state_machine.py:50-214 | On any run, in any order of bars: deployments are the full count times the stretches with a deploying bar, skips are the stretches with an early blocked bar, adjustments are at most the cap for each deployed stretch, and without one there are no adjustments or aborts |
| `WeeklyStretches.WeekIsSafeIffOneStretch` | weekly_corridor/state_machine.py:50-214 | The limits of a week hold on a run if and only if at most one of its stretches deploys and at most one skips |
| `WeeklyCounts.EveryWeekIsSafe` | weekly_corridor/state_machine.py:62-214 | For bars in time order a week is one stretch, so: one deployment in full or none, at most the allowed adjustments, at most one skip, and adjustments or aborts only after a deployment |
| `WeeklyCounts.TimeOrderIsNeeded` | weekly_corridor/strategy.py:94 | For any three deploying bars in the order of a decision frame, two weeks of one symbol and then a later-sorted symbol in the first of these weeks, that week deploys twice and its limits fail |
| `WeeklyTotals.AccountOfRun` | weekly_corridor/state_machine.py:50-214 | On any run, in any order of bars: the layers deployed are the full count times the deployed stretches of all weeks, the skips are the skipped stretches, and adjustments are at most the cap for each deployed stretch |
| `WeeklyTotals.WeeksOfRun` | weekly_corridor/report.py:147-153 | On any run, in any order of bars: the weeks traded are those of the deployed stretches, the weeks skipped those of the skipped ones, and aborted and adjusted weeks are traded weeks |
| `WeeklyTotals.WeeklyFiguresAreBounded` | weekly_corridor/report.py:147-168 | For bars in time order there is one deployed stretch for each traded week: adjustments are at most the cap times the weeks traded, and deployments the full count times the weeks traded |
| `WeeklyEvents.EventWeeksAreNotTraded` | weekly_corridor/strategy.py:163-208 | With event weeks skipped, a run of classified bars opens no layer in an event week and records skips only there |
| `WeeklyEvents.RegimesMean` | weekly_corridor/strategy.py:163-208 | Each answer of the classifier in both directions: event weeks first, then a rise, then a fall, then a narrow and calm range; neutral on too short a sample |
| `WeeklyEvents.ActionsFollowReadings` | weekly_corridor/state_machine.py:62-147 | On a run of classified bars an open corridor is aborted if and only if the readings of the bar rise or fall, with enough of them and outside skipped event weeks; a deployment needs narrow and calm ones |
| `WeeklyPricer.MarkIsBounded` | weekly_corridor/strategy.py:238-252 | Marks lie between zero and the greatest of peak, cost and floor |
| `WeeklyPricer.MarkFallsAwayFromCenter` | weekly_corridor/strategy.py:238-252 | The mark falls or stays with the distance from the center, across the change of formula at drift 1, if and only if peak, cost and floor stand in the stated relation |
| `WeeklyPricer.MarksCanRise` | weekly_corridor/strategy.py:238-252 | With a peak of a tenth of the width, a layer of the default configuration is worth more at its wing than at its center on the day it is opened |
| `WeeklyPricer.MarkAtDistance` | weekly_corridor/strategy.py:238-252 | The mark at each distance from the center: within one width between cost and peak, a fifth of the way on the first day and all of it at expiry; beyond one width the tail, 0.45 of it at expiry; nothing from 1.4 widths on |
| `WeeklyPricer.MarkFollowsTime` | weekly_corridor/strategy.py:242-252 | With the peak no lower than the cost, a mark within one width of the center rises or stays with time, and one beyond it falls or stays |
| `WeeklyPricer.CostsOfLayer` | weekly_corridor/strategy.py:231-245 | Debit, friction and cost of a layer written out; a recorded cost other than zero replaces the cost in a mark |
| `WeeklyEngine.SortedDifference` | weekly_corridor/backtest.py:46-47 | The ids of one list that are not in the other, each once and rising |
| `WeeklyEngine.BarMovesIds` | weekly_corridor/backtest.py:41-47 | A bar closes the oldest ids and opens the next ones, so open layers are an interval of ids before and after it |
| `WeeklyEngine.RecordsNameLayers` | weekly_corridor/backtest.py:49-85 | An opening record names an id that only exists after the bar, a closing record one that only existed before it, each with the layer that carries it |
| `WeeklyEngine.Engine.CompareIds` | weekly_corridor/backtest.py:41-47 | The two set differences are exactly the intervals of new ids and of the oldest ids |
| `WeeklyEngine.BookOpened` | weekly_corridor/backtest.py:49-63 | Each new layer is charged debit and friction once; the payment is written on its own record and on no other; older layers are unchanged |
| `WeeklyEngine.Engine.CloseOne` | weekly_corridor/backtest.py:65-75 | A close is worth the mark less friction but not less than zero, and realizes that value less the cost of the opening bar |
| `WeeklyEngine.Engine.BookClosed` | weekly_corridor/backtest.py:65-85 | Net and gross realized P&L grow by the sums over the closed layers, and each record of a closed layer is enriched once |
| `WeeklyEngine.Engine.MarkOpen` | weekly_corridor/backtest.py:89-96 | Unrealized and gross unrealized P&L and the deployment are sums over the open layers |
| `WeeklyEngine.EachRecordOnce` | weekly_corridor/backtest.py:129-133 | Enriching by opened ids and then by closed ids gives each record its own money exactly once |
| `WeeklyEngine.Engine.KeepBooks` | weekly_corridor/backtest.py:41-85 | Accounting by id comparison equals accounting by the records of the bar, rollover bars included |
| `WeeklyEngine.Engine.ProcessBar` | weekly_corridor/backtest.py:33-124 | One bar of the loop: machine step, enriched records, realized and gross sums, and the equity point |
| `WeeklyEngine.Engine.RunBacktest` | weekly_corridor/backtest.py:25-127 | On any bars the loop returns the transitions and the enriched log of the run, the equity curve of the run, and a realized P&L that is the sum over all closing records |
| `WeeklyEngine.RunOfOneMore` | weekly_corridor/backtest.py:87-124 | How log, realized sums, total equity and curve of a run grow by one bar |
| `WeeklyLedger.FrictionLaw` | weekly_corridor/backtest.py:49-99 | At every point gross less net equity is friction times the layers ever opened, plus for each closed layer the lesser of its gross value and the friction |
| `WeeklyLedger.NetNeverExceedsGross` | weekly_corridor/backtest.py:65-99 | With non-negative friction and marks net equity is at most gross equity |
| `WeeklyLedger.EquityFloor` | weekly_corridor/backtest.py:65-99 | Total equity is at least minus the entry costs of all layers ever opened |
| `WeeklyLedger.FlatEquityIsRealized` | weekly_corridor/backtest.py:89-99 | In a state that is neither ACTIVE nor ADJUSTED no layer is open and total equity is the realized sum |
| `WeeklyLedger.OccupiedIsInside` | weekly_corridor/backtest.py:102-103 | On every bar of every run: the bar is occupied if and only if some open layer has its lower strike at or below the price and some open layer its upper strike at or above it; with no open layer it is not |
| `WeeklyLedger.PointTells` | weekly_corridor/backtest.py:89-124 | Every equity point of every run tells its bar, the state after it, the realized sums of the log, and the open layers: their marks less their cost are the unrealized gain, gross leaves out their friction, and the bar P&L is the move of the total |
| `WeeklyEquity.WidthsAreConfigured` | weekly_corridor/strategy.py:103-150 | Every layer a run opens has the configured width |
| `WeeklyEquity.EquityIsBracketed` | weekly_corridor/backtest.py:65-99 | For the engine's own pricer: on every bar of every run equity lies between minus all entry costs and gross equity |
| `WeeklyReport.BarPnlTelescopes` | weekly_corridor/backtest.py:98-101 | The bar P&L of a run adds up to its final total equity |
| `WeeklyReport.GroupsAddUp` | weekly_corridor/report.py:124-125 | Grouping points by any key, each key once, keeps the sum |
| `WeeklyReport.GroupsAddUpToTotal` | weekly_corridor/report.py:119-127 | The bar P&L of a run, grouped by any key, adds up to the final total equity |
| `WeeklyReport.DaysAndWeeksAddUp` | weekly_corridor/report.py:124-125 | The P&L of the local days, and that of the week keys, each add up to the final total equity |
| `WeeklyReport.GroupsAreDaysAndWeeks` | weekly_corridor/report.py:124-125 | The groups of a curve are the local days and the weeks of its points, each once and no other |
| `WeeklyReport.BookedRowsAreClosedLayers` | weekly_corridor/report.py:129-133 | The enriched log has one realized row for each closed layer, and the rows add up to the realized P&L, net and gross |
| `WeeklyReport.MoneyOfRecord` | weekly_corridor/backtest.py:49-85 | The money on each record: closing brings the mark less friction, or nothing when that is negative, and realizes it less what opening took; opening takes debit and friction; nothing else of a record changes |
| `WeeklySummary.SummaryOfRun` | weekly_corridor/report.py:149-176 | The summary of any run, in any order of bars: one row per closed layer, winners and losers among them, layers opened as whole corridors of deployed stretches and adjustments, at most the cap of these for each stretch, aborted weeks among the traded ones, adjustments per week times weeks traded are the adjustments, active layers within their cap, occupancy between zero and one |
| `WeeklySummary.SummaryInOrder` | weekly_corridor/report.py:149-176 | For bars in time order the weeks traded are the deployed stretches, and adjustments per week are within their cap |
| `WeeklySummary.FactorsOfRun` | weekly_corridor/report.py:134-147 | For any run: the profit factor by week is missing if and only if no week lost, and exceeds one if and only if the run made money; the one by layer is missing if and only if no closed layer lost, and exceeds one if and only if the closed layers made money |
| `WeeklySummary.MoneyOfSummary` | weekly_corridor/report.py:119-176 | The money of any summary: net P&L in dollars, return on capital, the deployment that no bar exceeds, the day and week that no other falls below, and the share of bars that are occupied |
| `WeeklySummary.CountsOfSummary` | weekly_corridor/report.py:149-176 | The counts of any summary: rows with a gain, rows with a loss and all rows, weeks with a deployment and with an abort, and the most layers active on a bar, which some bar has and no bar exceeds |
| `WeeklySummary.FactorTimesLosses` | weekly_corridor/report.py:134-145 | A profit factor times the losses is the gains, and gains and losses together are the magnitudes |
| `WeeklySummary.WorstGroup` | weekly_corridor/report.py:124-127 | For days, weeks or any other grouping of a run: no group is worse than the worst, one is as bad, and the net P&L is at least the number of groups times it |
| `StrikeBook.AddChangesOne` | legacy/adopt_paper_butterfly.py:110-112 | Adding to the counter changes the quantity of one strike only and keeps the order of those already there |
| `StrikeBook.AddMovesValue` | legacy/adopt_paper_butterfly.py:151-153 | Under any weights on strikes, adding moves the value of the book by quantity times weight |
| `GreedyButterflies.TakeShrinks` | legacy/adopt_paper_butterfly.py:128-153 | One pass takes at least one lot, moves no strike across zero, and makes one of its three strikes unusable |
| `GreedyButterflies.LaterCandidate` | legacy/adopt_paper_butterfly.py:116-139 | What can be taken after a pass could be taken before it, and comes later in the selection order |
| `GreedyButterflies.StepsKeepBook` | legacy/adopt_paper_butterfly.py:115-153 | Over all passes the strikes stay the same and every quantity moves toward zero only |
| `GreedyButterflies.QuantityIsConserved` | legacy/adopt_paper_butterfly.py:140-153 | Strike by strike: initial quantity is what is left plus the signed legs of the structures |
| `GreedyButterflies.SelectionOrderIncreases` | legacy/adopt_paper_butterfly.py:136-139 | The selection keys increase strictly, so no triple is selected twice |
| `GreedyButterflies.StructuresAreBounded` | legacy/adopt_paper_butterfly.py:115-153 | A book with n usable strikes yields at most n - 2 structures, if it yields any |
| `GreedyButterflies.DecompositionIsDetermined` | legacy/adopt_paper_butterfly.py:115-153 | Books with the same quantities have one and the same complete greedy decomposition, however their entries are listed |
| `GreedyButterflies.ValueIsConserved` | legacy/adopt_paper_butterfly.py:140-153 | Under any weights on strikes the book is worth its structures plus what is left |
| `GreedyButterflies.ButterflyPaysTent` | legacy/adopt_paper_butterfly.py:140-150 | A structure in calls and the same one in puts pay the same tent over the body and have no net quantity or net strike |
| `GreedyButterflies.PayoffIsTentsAndLeftovers` | legacy/adopt_paper_butterfly.py:117-167 | At every spot the expiry payoff of a group is the tents of its structures plus the payoff of the leftovers |
| `GreedyButterflies.AdoptedBookIsBracketed` | legacy/adopt_paper_butterfly.py:260-270 | Without leftovers the payoff lies between zero and the sum of lots times width, and net quantity and net strike are zero |
| `GreedyButterflies.GreedyCanStrandButterflies` | legacy/adopt_paper_butterfly.py:136-139 | A book at strikes from 400 to 505 dollars that is exactly three long butterflies, and that every greedy decomposition leaves unexplained |
| `FittingButterflies.RecoveredIffFits` | legacy/adopt_paper_butterfly.py:115-153 | For any list of butterflies that makes up a book: every complete greedy decomposition selects exactly these, with these lots, if and only if they fit |
| `FittingButterflies.ExplainedIffFit` | legacy/adopt_paper_butterfly.py:115-153 | Any book is explained in full by greedy selection if and only if it is made of some butterflies that fit |
| `SeparateButterflies.FitsIffClear` | legacy/adopt_paper_butterfly.py:115-153 | Butterflies with bodies of their own fit if and only if no triple of strikes that is none of them keeps its strikes until its turn |
| `StackedButterflies.StackedButterfliesFit` | legacy/adopt_paper_butterfly.py:128-153 | Butterflies of different widths on one body fit, with any lots |
| `ButterflyAdoption.FindCandidates` | legacy/adopt_paper_butterfly.py:116-131 | The two loops find every candidate triple of the counter and nothing else |
| `ButterflyAdoption.PickMinimum` | legacy/adopt_paper_butterfly.py:136-139 | The selected triple comes before every other one in the selection order |
| `ButterflyAdoption.Decompose` | legacy/adopt_paper_butterfly.py:115-153 | The `while True` loop ends, every pass takes the best triple of its moment, and no triple is left at the end |
| `ButterflyAdoption.CollectLeftovers` | legacy/adopt_paper_butterfly.py:155-166 | The leftovers list, by rising strike, exactly the strikes with quantity left |
| `ButterflyAdoption.GroupLegs` | legacy/adopt_paper_butterfly.py:110-112 | Every group of the account gets one counter, which holds the sums of its legs, and the groups are in the order in which the account first shows them |
| `ButterflyAdoption.InferLongButterflies` | legacy/adopt_paper_butterfly.py:107-167 | For every group: the structures are a complete greedy decomposition of its legs and the leftovers are the rest; both lists follow the order in which the account first shows the groups |
| `AdoptionOrder.StructuresAreNarrowestFirst` | legacy/adopt_paper_butterfly.py:115-153 | In any adoption and group, and written out in strikes and quantities of the account: each structure is a triple left by the structures before it, with as many lots as the triple allows, and no triple left is narrower, or as wide with its body nearer to zero, or then lower |
| `AdoptionOrder.NoTripleIsLeft` | legacy/adopt_paper_butterfly.py:128-167 | After all structures no triple of strikes is left, and the leftovers are what is left of each strike |
| `AdoptionOrder.TiedAccountIsAdopted` | legacy/adopt_paper_butterfly.py:136-139 | An account with two candidates of one width: every adoption takes the one nearer to zero first, gives the three butterflies and no leftovers |
| `ButterflyAdoption.AccountIsConserved` | legacy/adopt_paper_butterfly.py:107-167 | For every group and strike: account quantity is leftover plus structures, and the leftover lies between zero and the account quantity |
| `ButterflyAdoption.AdoptionIgnoresLegOrder` | legacy/adopt_paper_butterfly.py:110-167 | Structures and leftovers of a group, in their order, do not depend on the order in which the account lists its legs |
| `ButterflyAdoption.AdoptedAccountIsBracketed` | legacy/adopt_paper_butterfly.py:260-270 | An account adopted without leftovers has in every group and at every spot a payoff between zero and lots times width, the same in calls and in puts |
| `AdoptionLimits.ButterflyAccountsAreAdopted` | legacy/adopt_paper_butterfly.py:107-167 | Any account of butterflies is given back as it is if and only if the butterflies of each of its groups fit; and then there are no leftovers |
| `AdoptionLimits.StackedAccountsAreAdopted` | legacy/adopt_paper_butterfly.py:107-167 | An account with one body in each group, under butterflies of different widths with any lots, is given back as it is, without leftovers |
| `AdoptionLimits.AcceptedIffExplained` | legacy/adopt_paper_butterfly.py:107-167 | Any account has no leftovers if and only if each of its groups is made of some butterflies that fit |
| `AdoptionLimits.AccountCanBeStranded` | legacy/adopt_paper_butterfly.py:107-167 | Every adoption of the account of legs of the butterflies 400/430/460, 425/450/475 and 435/470/505 has leftovers |
| `AdoptionLimits.SampleIsNotClear` | legacy/adopt_paper_butterfly.py:116-139 | The book of the refused account is made of three separate butterflies, which are not clear and do not fit |
| `AdoptionLimits.AccountCanBeAcceptedAsAnother` | legacy/adopt_paper_butterfly.py:107-167 | The butterflies of the account of 400/415/430, 410/418/426 and 420/428/436 do not fit, and every adoption of it is 426/428/430, 410/415/420 and 400/418/436 without leftovers |
| `AdoptionLimits.AdjacentCorridorIsNotAdopted` | legacy/adopt_paper_butterfly.py:107-167 | An account of three butterflies as far apart as they are wide, for any center, width and lots, yields no structure: all its legs are left over |
| `ButterflyAdoption.AssignLayerKinds` | legacy/adopt_paper_butterfly.py:170-180 | Exactly one structure is primary: the first of those nearest to the mean body |
| `ButterflyAdoption.DistanceIsFromMean` | legacy/adopt_paper_butterfly.py:173-177 | The compared distance is that of the body from the mean of all bodies, times their number |
| `BarStore.MergeIsPut` | legacy/strategy.py:793-794 | Concatenating, dropping earlier duplicates and sorting puts a row in its place in a sorted frame |
| `BarStore.EverythingIsLatest` | legacy/strategy.py:793-794 | The unbounded store holds for each timestamp the last row sent for it and nothing else |
| `BarStore.EvictedRowsDoNotMatter` | legacy/strategy.py:796-797 | Rows evicted earlier do not change what is kept after the next bar |
| `BarStore.UpsertKeeps` | legacy/strategy.py:775-800 | One upsert on the frame of the bars so far gives the frame of all bars, for the first bar and for every bound, zero and negative ones included |
| `BarStore.KeptIsNewest` | legacy/strategy.py:793-800 | The frame is strictly sorted, holds latest rows only, and a latest row that is missing is older than all rows of a full frame |
| `BarStore.LastRowIsNewest` | legacy/strategy.py:793-800 | With a positive bound the last index is the newest timestamp ever sent, so it never decreases |
| `BarStore.ArrivalOrderDoesNotMatter` | legacy/strategy.py:793-800 | Two histories with the same latest rows leave the same frame |
| `BarStore.LiveBarStore.UpsertBar` | legacy/strategy.py:775-800 | After every upsert, in any order, with duplicates and with evicted bars sent again, the frame is the newest rows of the latest-value-wins map of all bars of the symbol |
| `Indicators.ResampleKeeps` | legacy/strategy.py:547-560 | Candles of a sorted frame, counted from any origin such as the first midnight of the frame, rise in time, hold the volume of the rows, and the last one has the close and the interval of the last row |
| `IndicatorLaws.CandlesAreOfRows` | legacy/strategy.py:547-560 | Every candle of a sorted frame is that of the rows of its interval: first open, greatest high, least low, last close, all of the volume |
| `Indicators.EmaIsBetween` | legacy/strategy.py:437-448 | A moving average stays between the least and the greatest value of its series |
| `IndicatorLaws.EmaDecays` | legacy/strategy.py:437-448 | Over constant values the distance of a moving average from them shrinks by the same factor each time |
| `IndicatorLaws.HistIsDistance` | legacy/strategy.py:442-448 | The histogram is the last difference of fast and slow average less the average of all these differences |
| `IndicatorLaws.RsvMeasures` | legacy/strategy.py:451-453 | The raw stochastic value places the close between the extremes of a full window, and is missing if and only if these coincide |
| `IndicatorLaws.StochasticsAreMeans` | legacy/strategy.py:454-455 | K is the mean of the last raw values and D that of the last values of K |
| `IndicatorLaws.RatioIsShareOfMean` | legacy/strategy.py:472-473 | The volume ratio is the last volume as a share of the mean of the last twenty |
| `IndicatorLaws.CenterIsMean` | legacy/strategy.py:538-541 | The range center is the mean of a third of high, low and close over the window |
| `IndicatorLaws.RegimeMeans` | legacy/strategy.py:502-524 | Each regime in both directions: trends need both frames aligned with momentum and spread; a small spread without a trend is a range; short frames have none |
| `IndicatorLaws.ReadingMeans` | legacy/strategy.py:547-584 | Every field of a reading is that of the right candles over the right window |
| `Indicators.LowIsLowest` | legacy/strategy.py:532-533 | The recent low is the low of one of the last candles and no higher than any of them |
| `Indicators.HighIsHighest` | legacy/strategy.py:535-536 | The recent high is the high of one of the last candles and no lower than any of them |
| `SignalEngine.PositionState.Roll` | legacy/strategy.py:493-500 | The session counters restart on another date and on no other occasion |
| `SignalEngine.PositionState.Judge` | legacy/strategy.py:583-767 | The statement form, with its early returns, decides as the decision function: exits, cooldown, entries, range signal |
| `SignalEngine.PositionState.TryLong` | legacy/strategy.py:668-702 | A long entry is taken if and only if all its conditions hold, and then sets side, price, time, stop, target, signal time and counter |
| `SignalEngine.PositionState.TryShort` | legacy/strategy.py:704-738 | The same for a short entry |
| `SignalEngine.ShortTargetsBelowZero` | legacy/strategy.py:704-727 | The target of any short entry is below zero if and only if the risk times the reward ratio exceeds the price, and the signal shows it below zero if and only if it does so by more than half a unit of the fourth decimal |
| `SignalEngine.SignalEngine.EvaluateFrame` | legacy/strategy.py:543-767 | Evaluating a frame changes the position of its symbol as the evaluation function says and no other position |
| `SignalPipeline.DecisionsAreGood` | legacy/strategy.py:583-767 | One decision: the signal fits the side, the counters count it, an entry or range signal respects cooldown and cap, and a side left open is on the good side of its stop |
| `SignalPipeline.SignalsAlternate` | legacy/strategy.py:583-765 | On every run and for each symbol, in any arrival order, directional signals are entries each followed by the exit of its side, and the last unmatched entry is the open side |
| `SignalPipeline.SignalsAreSpaced` | legacy/strategy.py:526-530 | The signals of a symbol are in time order, and one that is not an exit keeps the cooldown from every earlier one |
| `SignalPipeline.SessionsAreCapped` | legacy/strategy.py:493-500 | On each local day a symbol gets at most the configured entries of each side and range signals |
| `SignalPipeline.OpenSidesAreAboveTheirStops` | legacy/strategy.py:583-663 | After a judged bar an open long side has the close above its stop, a short side below |
| `SignalReasons.JudgedBarsAreReasoned` | legacy/strategy.py:583-767 | On every judged bar of every run: an exit is sent if and only if the side of the position met its stop, closed on the wrong side of the fast average, faces the opposite trend, or is stale (minutes and gain written out); a side is entered if and only if none was held and all of regime, momentum, volume, closeness, risk, opening range, cooldown and cap allow it, with stop and target written out; a range is marked if and only if its conditions hold |
| `SignalReasons.OtherBarsAreSilent` | legacy/strategy.py:543-545 | A bar that is not judged sends nothing and leaves the position as it was |
| `SignalPipeline.ShortStoresAreSilent` | legacy/strategy.py:544-545 | A store for fewer than 120 bars never lets a signal through |
| `SignalPipeline.StrategyPipeline.ProcessBar` | legacy/strategy.py:822-855 | Store and engine hold, for every symbol, exactly what the calls so far lead to, and the returned signal is that of the run |
| `SignalPipeline.ReplaySignals` | legacy/backtest_options.py:197-219 | Replaying bars collects exactly the stream of the run |
| `NegativeTargets.JumpReading` | legacy/strategy.py:502-524 | On 120 half-hour bars, flat but for two, the indicators say trend down, falling momentum, confirmed volume, and a swing high that is the high of the last bar |
| `NegativeTargets.ShortTargetsCanBeNegative` | legacy/strategy.py:704-738 | With all default settings, the run over these bars, in order and in regular hours, sends one signal: a short entry with a target below zero |
| `NegativeTargets.TheBacktestFails` | legacy/backtest_options.py:496-501 | The option backtest of that run ends in an error, for every plan configuration without inversion, every volatility and every price |
| `SignalSummary.SummarizeSignals` | legacy/backtest.py:164-244 | The loop over any stream computes the figures of the matching fold, with averages over its closed trades |
| `SignalSummary.EverySignalIsAccountedFor` | legacy/backtest.py:169-223 | On any stream entries are closed, pending or overwritten, and signals are entries, range signals, closing exits or ignored exits |
| `SignalSummary.AlternatingMeansNothingIsLost` | legacy/backtest.py:174-223 | No entry is overwritten and no exit ignored if and only if the directional signals of every symbol alternate; the pending entries are then what the symbols hold |
| `SignalSummary.TradesGoForward` | legacy/backtest.py:195-223 | In a stream in time order every closed trade joins an entry with a later exit of the same symbol and side |
| `SignalSummary.EveryTradeIsAWinALossOrFlat` | legacy/backtest.py:225-227 | Wins, losses and flats add up to the closed trades |
| `SignalSummary.CountsFollowThePrice` | legacy/backtest.py:225-227 | Wins are the long trades that exit above and the short trades that exit below their entry price; losses mirror them; flats exit at it |
| `SignalSummary.MeanTimesTrades` | legacy/backtest.py:228-230 | An average times the number of closed trades is the sum, and without trades it is zero |
| `SignalSummary.PercentOfEntry` | legacy/backtest.py:56-60 | The percentage of a trade times its entry price is its points |
| `SignalSummary.SummaryOfAnyRun` | legacy/backtest.py:164-244 | On any interleaved stream of the engine entries are closed plus open, signals are entries plus range signals plus closed trades, trades go forward in time, and open positions are the sides the engine holds |
| `TradingDays.AdvanceTradingDays` | legacy/strategy.py:215-224 | Both loops end; the result is the weekday with exactly the asked number of weekdays after the start, and equals the closed form |
| `TradingDays.AdvanceIsUnique` | legacy/strategy.py:215-224 | There is only one such date |
| `TradingDays.ClosedFormAdvances` | legacy/strategy.py:215-224 | The closed form in weekday and count meets the definition for every start and count |
| `TradingDays.AdvancesCompose` | legacy/strategy.py:215-224 | Advancing by a and then by b is advancing by a + b |
| `OptionLegs.StrippingGivesShortest` | legacy/strategy.py:238-242 | Stripping zeros and then the dot off two decimals gives the shortest text and never eats digits before the dot |
| `OptionLegs.CentsTextIsDecimal` | legacy/backtest_options.py:32-34 | The shortest text of any number of cents is accepted as a strike and has its value |
| `OptionLegs.SpaceSeparates` | legacy/backtest_options.py:222-223 | White space separates the words before it from the words behind it, for any texts |
| `OptionLegs.SpacesAreListed` | legacy/backtest_options.py:32-34 | A character separates words if and only if it is the blank, tab to carriage return or one of the four separators |
| `OptionLegs.ParsedLegsAreSane` | legacy/backtest_options.py:32-34 | A parsed leg has a symbol of capital letters and a strike that is not negative |
| `OptionLegs.LegRoundTrip` | legacy/strategy.py:238-242 | Printing and parsing a leg of a plan returns the leg if and only if the symbol is in capital letters and the strike is a non-negative number of whole cents |
| `OptionLegs.LegParses` | legacy/backtest_options.py:222-225 | The text of any leg of a plan is read without an error if and only if its symbol is one word of capital letters and its strike is not negative |
| `OptionLegs.LegParsesIffNotNegative` | legacy/backtest_options.py:222-225 | With such a symbol the parser fails if and only if the strike is negative |
| `OptionLegs.OtherStrikesParse` | legacy/backtest_options.py:222-234 | Any leg text with a strike of some cents is read back with its side, quantity, symbol, expiry, right and that strike |
| `OptionPlanLaws.ParserAccepts` | legacy/backtest_options.py:32-34 | The parser accepts a text if and only if it is six words: a side, a whole number, capital letters, a date, a decimal number and a right; and returns what they say |
| `OptionPlans.StrikesEncloseThePrice` | legacy/strategy.py:227-235 | Rounding down and up gives the grid strikes next to the price on either side |
| `OptionPlans.CallSpreadShape` | legacy/strategy.py:250-270 | A call spread buys at or next below the price and sells at least a step higher, at or above the target, and within a step of it unless that is not beyond the bought strike |
| `OptionPlans.PutSpreadShape` | legacy/strategy.py:272-292 | A put spread buys at or next above the price and sells at least a step lower, at or below the target, and within a step of it unless that is not beyond the bought strike; its short strike is negative if and only if the target is |
| `OptionPlans.ButterflyShape` | legacy/strategy.py:294-315 | The range butterfly buys one call on either side of two sold ones, whose strike is at most half a step from the center, with wings as wide as configured but at least a step |
| `OptionPlanLaws.DirectionalPlan` | legacy/strategy.py:250-292 | The plan of any directional signal: strikes next to the price and to its target, or to the default one, with the expiry the configured number of trading days ahead |
| `OptionPlanLaws.RangePlan` | legacy/strategy.py:294-315 | The plan of any range signal: a butterfly around a strike nearest to the range center, or to the price without one |
| `OptionPlanLaws.InvertedSignal` | legacy/backtest_options.py:365-403 | Inversion turns a directional signal to the other side, with the stop as far on the other side but not below a cent and the target at the reward ratio, and leaves every other signal as it is |
| `OptionPlanLaws.TradedLegs` | legacy/backtest_options.py:222-251 | The legs the backtest trades are those of the plan, with their strikes, bought and sold, times the number of contracts |
| `OptionPlanLaws.TradedExpiry` | legacy/backtest_options.py:254-256 | A traded spread expires at the close of the day that its legs name, the configured number of weekdays after that of the signal |
| `OptionPlanLaws.ExitPlan` | legacy/strategy.py:317-324 | An exit closes a spread and has no legs |
| `OptionPlans.CallSpreadReadsBack` | legacy/strategy.py:250-270 | With a step of whole cents both legs of a call spread survive printing and parsing if and only if the symbol is in capital letters |
| `OptionPlans.PutSpreadReadsBack` | legacy/strategy.py:272-292 | For a put spread the short leg survives if and only if in addition the target is not negative |
| `OptionPlans.PlannedSpreadOutcome` | legacy/backtest_options.py:365-501 | What the backtest makes of a signal, inverted or not: nothing of exits and range signals, an error if and only if the symbol cannot be read or a put spread has a negative target, and otherwise the spread of the planned side, expiring the configured trading days ahead |
| `OptionPlans.MirroredTarget` | legacy/backtest_options.py:370-390 | The mirrored short signal of a long one has a negative target if and only if the mirrored risk exceeds the price by more than half a unit of the fourth decimal |
| `OptionPlans.PricePlan` | legacy/backtest_options.py:283-290 | The loop computes the signed sum of quantity times price over the legs |
| `OptionPlanLaws.PlanIsBoughtLessSold` | legacy/backtest_options.py:283-290 | A plan is worth what it buys less what it sells |
| `OptionPlans.ScalingMultipliesTheValue` | legacy/backtest_options.py:237-251 | Scaling legs multiplies the value of the plan by the number of contracts, but at least by one |
| `OptionPlans.LoggedLegsReadBack` | legacy/backtest_options.py:358-361 | A leg that was parsed from a plan and scaled is read back unchanged from the trade log |
| `OptionSimulator.SimulateDirectionalOptionTrades` | legacy/backtest_options.py:465-544 | The loops compute the simulated book, and the open positions returned are always none |
| `OptionSimulator.TakeSignal` | legacy/backtest_options.py:475-526 | One signal: lazy expiry first, then an entry, an exit of the same side, or nothing; a leg that does not parse is an error |
| `OptionSimulator.ParseableSignalsSucceed` | legacy/backtest_options.py:500 | Only a leg that does not parse makes the simulation fail |
| `OptionSimulator.SimulationFailsIff` | legacy/backtest_options.py:465-544 | For any plans, the simulation fails if and only if an entry whose legs do not parse is reached while its symbol is flat |
| `OptionSimulator.EveryTradeEnds` | legacy/backtest_options.py:465-544 | On any frame and any signals each accepted trade is closed once or dropped for want of a spot price |
| `OptionValues.TradesAreValued` | legacy/backtest_options.py:338-345 | Every closed trade of a successful simulation: entered on a directional signal at a positive price of its legs there; ended by an exit signal of its side at that signal's price, or at its expiry or with the data at the close of a newest row; its exit value is the price of its legs at that instant and spot |
| `OptionValues.SignalsAreActedOn` | legacy/backtest_options.py:475-526 | After an exit signal no trade of its symbol and side is open; after an entry signal with a spread of positive value its symbol has an open trade, and none that has expired |
| `OptionSimulator.LookupFinds` | legacy/backtest_options.py:302-306 | A row of the symbol up to an instant makes a spot price available, in whatever order the frame lists its rows |
| `OptionSimulator.SimulatedTradesAreSound` | legacy/backtest_options.py:475-544 | For signals in time order on bars, with expiries not before entries: every accepted trade is closed exactly once, between entry and expiry, and the trades of one symbol do not overlap |
| `OptionBacktest.StoredBarsCameIn` | legacy/strategy.py:822-835 | What is stored for a symbol came in for it, in regular hours |
| `OptionBacktest.ExpiryIsNotBeforeTheSignal` | legacy/backtest_options.py:254-256 | The close of the advanced trading day is not before a signal of regular hours |
| `OptionBacktest.EntriesAreReachedFlat` | legacy/backtest_options.py:491-494 | On the signals of the engine every entry finds its symbol flat, because the trade of the entry before was closed or dropped by then |
| `OptionBacktest.BacktestTradesAreSound` | legacy/backtest_options.py:547-550 | The backtest of any replay over a frame that holds the replayed bars, with the plans of the source: it ends in an error if and only if some signal has a leg that cannot be read, and otherwise every accepted trade is closed once, within its life, and no two trades of a symbol overlap |
| `OptionBacktest.NegativeTargetsEndTheBacktest` | legacy/backtest_options.py:496-501 | Without inversion, and for symbols that can be read, the backtest of a replay ends in an error if and only if the engine sent a short signal with a negative target |

## Left out

- Floating point: all arithmetic is exact, so float error, and the rounding of reported fields to two, four or six decimals, are not captured.
- Time zone data: offsets of four and five hours stand for New York; that local days never run backwards is part of the order on bars, and the week key of a Sunday night next to a clock change is taken from the calendar day.
- A second `run` of the same weekly engine object, which would start from the state of the first one.
- Records, transitions and signals as shared mutable objects: they are values here; the enriching of a record makes a new list.
- Detail and reason texts, metadata dictionaries other than the money, the signal extras other than stop, target and range center, and the `OptionPlan` notes.
- `prepare_weekly_frame` and the center estimator: their results are arbitrary inputs; `corridor/` is not part of this model.
- OptionSimulator.LookupFinds: rows of one symbol with equal timestamps are taken in the order of the frame.
- `build_recovery_payload`, `find_option_legs` and the broker connection.
- Strikes of an account are whole millionths, as the source rounds widths and upper strikes to six decimals.
- Black-Scholes, volatility and years to expiry: the price is an arbitrary function of spot, time, expiry, volatility and legs.
- OptionLegs.LegRoundTrip: digits and white space are the ASCII ones, while the source's pattern also accepts other Unicode digits and spaces.
- OptionPlans.LoggedLegsReadBack: strikes of the trade log are those of parsed plan legs, which have two decimals at most; other floats are not printed.
- Prices of the bars of the signal pipeline are positive; the source divides by the close and raises an error on zero.
- `summarize_option_trades`, CSV and JSON files, Discord, argument parsing and printing.
- `research/`, `run_*.py`, `legacy/live_ib.py`, `legacy/flatten_paper_spy.py`, `legacy/export_ib_bars.py` and `legacy/backtest_ib.py`.
