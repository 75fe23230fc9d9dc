# qstrader backtest core in Dafny

This project models the event-driven backtest core of qstrader:

- the business-day and business-hour timestamp generators (`BusinessDays`, `BusinessHours`);
- the two simulation engines that turn those timestamps into `SimulationEvent`s:
  - the business-days engine yields pre-market, market-open, market-close and post-market events;
  - the business-hours engine yields one market-open event per business hour;
- the hourly and buy-and-hold rebalance schedules;
- `BacktestTradingSession`. Its constructor validates the configuration and picks an engine and a schedule. Its `run` loop updates the broker on every event, the signals on market-close events (when there are signals) and the quant trading system on rebalance events past the burn-in date, and records the equity curve past the burn-in date.

Time is a `nat` count of minutes since a Monday 00:00 UTC, so the weekday of a
timestamp is its day number modulo 7. Every generator takes a midnight-aligned
start date, which is how the backtest is configured in
`tests/integration/trading/test_backtest_e2e.py`.

A generator that returns a pandas list is modelled differently depending on its body:

- a function, when the body is a single expression, except that `HourlyRebalance.GenerateRebalances` is a method: its comprehension reads `BusinessHours(...).rebalances`, which `Times.GenerateBusinessHours` computes with a loop;
- a method with a loop, proved equal to a specification function, when the body builds the list step by step (`BusinessHours._generate`, both `__iter__`s, `run`).

Both engines are datatypes: their fields never change after construction.
The session is a class with two mutable fields:

- `calls` is the trace of calls it makes on the broker, the signals collection and the quant trading system;
- `equityCurve` is the recorded equity curve.

The broker's reported equity is a parameter: a function from the call trace so far to a real.

The model follows the code where the code and its documentation differ:

- Without post-market, the business hours end at 23:00. With post-market they end at 21:00. The documentation (and the hourly end-to-end expectations) describe the regular session as ending at 21:00.
- The hourly range of each business day is not clipped to the end date.
- A buy-and-hold session never runs the trading system when the start date is midnight-aligned. Its only rebalance is the start date, and the business-days engine it uses (built without pre-market) yields no midnight event.

Modules: `Wrappers` (Option, Result), `Times` (`qstrader/utils/times.py`),
`Event` (`qstrader/simulation/event.py`), `BusinessDaySimulation`
(`bday.py`), `BusinessHourSimulation` (`bhour.py`), `HourlyRebalance`,
`BuyAndHoldRebalance` and `Backtest` (`qstrader/trading/backtest.py`).

## Model

| member | source | states |
|---|---|---|
| `Times.BusinessDateRange` | qstrader/utils/times.py:39-41 | the dates from a midnight start are strictly increasing and are exactly the Monday–Friday midnights in [start, end] |
| `Times.BusinessDays` | qstrader/utils/times.py:23-43 | `BusinessDays(...).rebalances` is strictly increasing and holds a timestamp iff it is a weekday midnight in the inclusive range |
| `Times.BusinessDaysIgnoresFlags` | qstrader/utils/times.py:23-26 | the pre/post-market flags have no effect on the generated business days |
| `Times.BusinessDaysEmptyRange` | qstrader/utils/times.py:39-41 | a range that ends before it starts has no business days |
| `Times.CeilToHour` | qstrader/utils/times.py:89 | `Timedelta.ceil("1h")` is a whole hour, not before its argument and less than an hour after it |
| `Times.DayStartTime` | qstrader/utils/times.py:86-89 | each day's hours start at 00:00 with pre-market, otherwise at 14:30 rounded up to 15:00 |
| `Times.DayEndTime` | qstrader/utils/times.py:91-94 | each day's last hour is a whole hour inside the day |
| `Times.HourRange` | qstrader/utils/times.py:99-104 | an hourly `date_range` has (to − from)/60 + 1 entries, and none when `to < from` |
| `Times.HourRangeEntries` | qstrader/utils/times.py:99-104 | the k-th entry of an hourly `date_range` is k hours after its start |
| `Times.GenerateBusinessHours` | qstrader/utils/times.py:70-107 | the loop over business days, extending with one hourly range per day, yields exactly the business-hour schedule |
| `Times.BusinessHoursOf` | qstrader/utils/times.py:70-107 | reference definition of `BusinessHours(...).rebalances`: one hourly range per business day, in date order; `GenerateBusinessHours` is proved equal to it and the `BusinessHours…` lemmas below state its properties |
| `Times.HourRangeMembership` | qstrader/utils/times.py:99-104 | a timestamp is in an hourly range iff it lies within the bounds a whole number of hours after the first |
| `Times.HoursOfDayMembership` | qstrader/utils/times.py:99-104 | for a midnight `d`, a timestamp is among `d`'s hours iff it falls on day `d` at a whole hour between the start and end hour |
| `Times.WholeHoursOfDay` | qstrader/utils/times.py:99-104 | the hourly range from a midnight plus a whole-hour offset `s` to the same midnight plus `e` holds exactly the whole hours of that date from `s` to `e` |
| `Times.HoursOfDayLength` | qstrader/utils/times.py:86-104 | every business day contributes the same number of hours, fixed by the two flags |
| `Times.HoursOfDaysMembership` | qstrader/utils/times.py:97-105 | a timestamp is in the extended list iff it is in the hours of one of the days |
| `Times.BusinessHoursMembership` | qstrader/utils/times.py:70-107 | a timestamp is in `BusinessHours(...).rebalances` iff it is a whole hour between the day's start and end hour on a weekday date in range |
| `Times.HoursOfDaysLength` | qstrader/utils/times.py:97-105 | each day contributes the same number of hours |
| `Times.BusinessHoursLength` | qstrader/utils/times.py:70-107 | the schedule has (number of business days) × (hours per day) entries |
| `Times.ConcatIncreasing` | qstrader/utils/times.py:105 | appending an increasing list whose entries all come later keeps the list increasing |
| `Times.HoursOfDaysIncreasing` | qstrader/utils/times.py:97-105 | over ascending midnights the extended hours are strictly increasing |
| `Times.BusinessHoursIncreasing` | qstrader/utils/times.py:70-107 | the business-hour schedule is strictly increasing, hence free of duplicates |
| `Times.BusinessHoursNotClipped` | qstrader/utils/times.py:99-104 | when the end date is a business midnight, that day's last hour is generated although it lies after the end date |
| `Event.Equals` | qstrader/simulation/event.py:23-44 | two events are equal iff timestamp and type agree; different timestamps are never equal |
| `Event.EqualsReflexiveSymmetric` | qstrader/simulation/event.py:23-44 | event equality is reflexive and symmetric |
| `BusinessDaySimulation.NewBusinessDaysSimulationEngine` | qstrader/simulation/bday.py:41-64 | construction fails iff the end precedes the start, with both dates in the error; otherwise the engine stores its arguments and the business days of the range |
| `BusinessDaySimulation.EventTime` | qstrader/simulation/bday.py:81-101 | reference definition of the time of day of each event type: 00:00, 14:30, 21:00, 23:59 |
| `BusinessDaySimulation.DayEvents` | qstrader/simulation/bday.py:81-101 | reference definition of one business day's events; `YieldDay` is proved equal to it and `DayEventsOnDay` states its dates, times and order |
| `BusinessDaySimulation.DailyEvents` | qstrader/simulation/bday.py:76-101 | reference definition of the whole iteration, day after day; `Iterate` is proved equal to it and the `DailyEvents…` lemmas state its length, blocks, dates, times and order |
| `BusinessDaySimulation.YieldDay` | qstrader/simulation/bday.py:81-101 | one business day yields the pre-market event (if enabled), then market open, market close and the post-market event (if enabled) |
| `BusinessDaySimulation.Iterate` | qstrader/simulation/bday.py:66-101 | iteration yields, per business day in order, the pre-market (if enabled), open, close and post-market (if enabled) events |
| `BusinessDaySimulation.DailyEventsLength` | qstrader/simulation/bday.py:76-101 | each business day yields 2 events plus one per enabled flag |
| `BusinessDaySimulation.DailyEventsBlock` | qstrader/simulation/bday.py:76-101 | the events of the i-th business day form the i-th block of the iteration |
| `BusinessDaySimulation.DayEventsOnDay` | qstrader/simulation/bday.py:81-101 | a day's events fall on that date at 00:00, 14:30, 21:00 and 23:59 by type, pre/post-market only when enabled, in increasing time |
| `BusinessDaySimulation.DailyEventsDates` | qstrader/simulation/bday.py:76-101 | every event falls on one of the business days |
| `BusinessDaySimulation.DailyEventsOrdered` | qstrader/simulation/bday.py:76-101 | over ascending business days the event timestamps strictly increase |
| `BusinessDaySimulation.DailyEventsTimes` | qstrader/simulation/bday.py:81-101 | every event happens at its type's time of day; pre- and post-market events appear only when enabled |
| `BusinessDaySimulation.EngineEvents` | qstrader/simulation/bday.py:41-101 | a constructed engine yields events in strictly increasing time, each on a weekday date in range at its type's time, with the per-day count |
| `BusinessDaySimulation.DefaultEngineEvents` | qstrader/simulation/bday.py:45-46 | with the default flags every business day yields all four events |
| `BusinessHourSimulation.NewBusinessHoursSimulationEngine` | qstrader/simulation/bhour.py:39-58 | the engine stores its arguments and the business-hour schedule, without any range check |
| `BusinessHourSimulation.TruncateToHour` | qstrader/simulation/bhour.py:71-87 | rebuilding a timestamp with minute 0 yields the whole hour at or before it, and leaves a whole hour unchanged |
| `BusinessHourSimulation.HourEvents` | qstrader/simulation/bhour.py:70-89 | reference definition of the iteration: one market-open event per stored timestamp; `Iterate` is proved equal to it and `HourEventsShape` states its shape |
| `BusinessHourSimulation.Iterate` | qstrader/simulation/bhour.py:60-89 | iteration yields one market-open event per business hour, in order |
| `BusinessHourSimulation.HourEventsShape` | qstrader/simulation/bhour.py:70-89 | the i-th event is a market-open event at the i-th whole-hour time |
| `BusinessHourSimulation.EngineEvents` | qstrader/simulation/bhour.py:39-89 | a constructed engine yields one market-open event per generated hour, strictly increasing in time |
| `BusinessHourSimulation.ReversedRangeYieldsNothing` | qstrader/simulation/bhour.py:39-58 | a range that ends before it starts is accepted and yields no events |
| `HourlyRebalance.GenerateRebalances` | qstrader/system/rebalance/hourly.py:26-42 | the hourly schedule is the business-hour list, strictly increasing, with the per-day count |
| `HourlyRebalance.DefaultSchedule` | qstrader/system/rebalance/hourly.py:26 | with default flags, a timestamp is scheduled iff it is a whole hour from 15:00 to 23:00 on a business date in range; 9 per business day |
| `HourlyRebalance.PostMarketSchedule` | qstrader/utils/times.py:91-92 | with `post_market` set, a timestamp is scheduled iff it is a whole hour from the day's first hour to 21:00 on a business date in range: the day ends earlier than without the flag |
| `BuyAndHoldRebalance.GenerateRebalances` | qstrader/system/rebalance/buy_and_hold.py:17-22 | the schedule is the start date alone |
| `Backtest.IterateEngine` | qstrader/trading/backtest.py:353 | iterating the session's engine yields the events of whichever engine was built |
| `Backtest.EngineFor` | qstrader/trading/backtest.py:190-214 | reference definition of the engine each known rebalance string gets: business hours for "hourly", business days otherwise, both flags off; `CreateSimulationEngine` is proved to return it |
| `Backtest.CreateSimulationEngine` | qstrader/trading/backtest.py:190-216 | an unknown rebalance string fails; a business-days engine (every known string but "hourly") fails on a reversed range; otherwise the engine is built with both flags off |
| `Backtest.CreateRebalanceEventTimes` | qstrader/trading/backtest.py:218-239 | fails iff the rebalance string is unknown; buy-and-hold yields the start date, hourly the business hours with default flags |
| `Backtest.ScheduleFor` | qstrader/trading/backtest.py:218-239 | reference definition of the schedule each known rebalance string gets; `CreateRebalanceEventTimes` is proved to return it |
| `Backtest.QuantTradingSystemError` | qstrader/trading/backtest.py:254-278 | long-only needs `cash_buffer_percentage`, long/short needs `gross_leverage`, with the matching error |
| `Backtest.ConstructionError` | qstrader/trading/backtest.py:121-143 | the first failing check decides the error: rebalance string, date range, weekly weekday, trading-system parameter; no error iff all pass |
| `Backtest.IsRebalanceEvent` | qstrader/trading/backtest.py:147-155 | under "hourly" every timestamp is a rebalance event, otherwise exactly the scheduled ones |
| `Backtest.PastBurnIn` | qstrader/trading/backtest.py:368-369 | reference definition of the burn-in test used for both the rebalance and the equity update (lines 384-385): no burn-in date, or the event is not before it |
| `Backtest.StepCalls` | qstrader/trading/backtest.py:359-378 | reference definition of the calls one event makes, in order; `ProcessEvent` is proved to append it and `StepCallsShape`/`StepCallsTo` state its properties |
| `Backtest.StepCallsShape` | qstrader/trading/backtest.py:359-378 | per event the broker is updated first and once; signals iff present and market close; trading system iff a rebalance event past the burn-in |
| `Backtest.StepCallsTo` | qstrader/trading/backtest.py:359-378 | per event, one broker update; one signals update iff signals exist and it is a market close; one trading-system run iff it is a rebalance event past the burn-in |
| `Backtest.RunCallsStep` | qstrader/trading/backtest.py:353-378 | the calls for the first i + 1 events are those for the first i followed by event i's |
| `Backtest.RunUnfold` | qstrader/trading/backtest.py:353-388 | a run over one more event appends that event's calls and equity entry |
| `Backtest.RunCalls` | qstrader/trading/backtest.py:353-378 | reference definition of a whole run's calls, event after event; `Run` is proved to append it and the `…UpdatedOncePerEvent`/`…OnMarketClose`/`…OnRebalanceEvents` lemmas state what it calls when |
| `Backtest.EquityPoints` | qstrader/trading/backtest.py:380-388 | reference definition of the equity entries of a run: one per event past the burn-in, with the equity after that event's calls; `Run` is proved to append it and `EquityCurveTimes` states its dates |
| `Backtest.BacktestTradingSession.constructor` | qstrader/trading/backtest.py:100-145 | the configuration is stored and the call trace and equity curve start empty |
| `Backtest.BacktestTradingSession.UpdateEquityCurve` | qstrader/trading/backtest.py:295-300 | appends the timestamp with the equity reported after all calls so far |
| `Backtest.BacktestTradingSession.ProcessEvent` | qstrader/trading/backtest.py:355-388 | one loop iteration appends that event's calls and, past the burn-in, one equity entry taken after them |
| `Backtest.BacktestTradingSession.Run` | qstrader/trading/backtest.py:337-390 | the run appends the calls of every event of the engine in order, and the equity entries of the events past the burn-in |
| `Backtest.NewBacktestTradingSession` | qstrader/trading/backtest.py:80-145 | construction fails exactly with `ConstructionError`; on success the session holds the engine and schedule for its rebalance string and empty trace and curve |
| `Backtest.CallsToConcat` | qstrader/trading/backtest.py:353-388 | the calls on one collaborator over two runs are those of the first run followed by those of the second |
| `Backtest.BrokerUpdatedOncePerEvent` | qstrader/trading/backtest.py:353-360 | `broker.update` is called once per event, with the event timestamps in order |
| `Backtest.SignalsUpdatedOnMarketClose` | qstrader/trading/backtest.py:362-364 | `signals.update` is called exactly at the market-close timestamps, and never without signals |
| `Backtest.TradingSystemOnRebalanceEvents` | qstrader/trading/backtest.py:366-378 | the trading system runs exactly at the rebalance events past the burn-in, in order |
| `Backtest.EquityCurveTimes` | qstrader/trading/backtest.py:380-388 | the equity curve has one entry per event past the burn-in, in order; one per event without a burn-in date |
| `Backtest.RecordedTimesWithoutBurnIn` | qstrader/trading/backtest.py:384-388 | without a burn-in date the equity curve records every event's timestamp, in order |
| `Backtest.RunCallsPrefix` | qstrader/trading/backtest.py:353-388 | the calls for the first n events are a prefix of the calls for all events |
| `Backtest.RunCallsSegment` | qstrader/trading/backtest.py:353-378 | each event's calls form one contiguous block after those of earlier events, starting with its broker update |
| `Backtest.CloseTimesEmpty` | qstrader/trading/backtest.py:363 | without market-close events there are no close timestamps |
| `Backtest.HourlyRebalanceTimes` | qstrader/trading/backtest.py:152-153 | under "hourly" every event past the burn-in is a rebalance event |
| `Backtest.UnscheduledRebalanceTimes` | qstrader/trading/backtest.py:155 | outside "hourly", events whose timestamps are not scheduled never rebalance |
| `Backtest.HourlyEngineNeverUpdatesSignals` | qstrader/simulation/bhour.py:88 | the business-hours engine yields only market-open events, so the signals are never updated |
| `Backtest.HourlySessionRun` | qstrader/trading/backtest.py:203-206 | an hourly session without burn-in updates the broker and runs the trading system at every generated business hour and never updates signals |
| `Backtest.BuyAndHoldSessionNeverTrades` | qstrader/trading/backtest.py:195-198 | a buy-and-hold session with a midnight start never runs the trading system |

## Left out

- The broker, exchange, data handler, universe, alpha and risk models, fee model and quant trading system are not part of this model. The session records its calls on them. The broker's equity is a function of that call trace, given as a parameter to `run`.
- `SimulatedBroker` creation, portfolio creation and fund subscription (backtest.py:118-120, 173-188) are left out, with any error they raise. So is the exchange (157-162).
- The daily, weekly and end-of-month rebalance classes are not part of this model. Their schedule is an `externalSchedule` parameter of `NewBacktestTradingSession`, and the weekday given under "weekly" is not used beyond the `rebalance_weekday` presence check.
- Keyword arguments are modelled as the set of names supplied, because only their presence is checked.
- The `stats` dictionary, `target_allocations`, `get_equity_curve`, `get_target_allocations` and `output_holdings` are left out. They are pandas reshaping, values filled in by the trading system, and console output.
- The `settings.PRINT_EVENTS` printing is left out, as is the `results` flag of `run`.
- Timezones, pandas timestamps and year/month/day decomposition are modelled as UTC minutes since a Monday epoch. Float equity is modelled as `real`.
- Generators are modelled as the collected sequence of what they yield, not lazily.
- `SimulationEvent.__eq__` returning `NotImplemented` for a non-event is not modelled. Event types are an enumeration instead of strings.
- The unknown-frequency branch of `_create_rebalance_event_times` can never be reached after the engine check; the model keeps it in `CreateRebalanceEventTimes`.
- Every generator requires a midnight-aligned start date. A start with a time of day would make `pd.date_range(freq="B")` yield timestamps that keep that time, which is not modelled.
- `Times.DayEndTime`: states only that the end is a whole hour inside the day. The concrete values are stated as schedule membership: 23:00 without `post_market` in `HourlyRebalance.DefaultSchedule`, 21:00 with it in `HourlyRebalance.PostMarketSchedule`.
