# A verified model of a candle pipeline and a backtest replay

This project models the two stateful cores of a quantitative trading engine and proves what they
promise.

**The candle pipeline.** Ticks are folded into bars for several timeframes at once (`ResamplerModel.dfy`,
`ResamplerRuns.dfy`, `ResamplerLanes.dfy`, `CrossTimeframe.dfy`). Closed bars are retained, completed from vendor
history, staged in a durable outbox, published and acknowledged, with a failure possible at every await
(`CandleStore.dfy`, `Emission.dfy`, `IngestionServiceModel.dfy`, and event by event `ServiceEvents.dfy`); what holds
over whole runs is proved for bars built from ticks (`EmissionLaws.dfy`, `EmissionRuns.dfy`, `EmissionProgress.dfy`),
from the tick that comes in to the bar that goes out (`ServiceFeeds.dfy`), for the windows in the store
(`EmissionWindows.dfy`) and for bars a vendor pushes, each with the gap check before it (`PushedBars.dfy`,
`EmissionPushes.dfy`, `EmissionReach.dfy`, `RisingPushes.dfy`, `OvertakenPushes.dfy`, `LostPushes.dfy`). Any number of
callbacks drain that outbox at once (`ConcurrentDrain.dfy`). Vendor history is merged behind live bars
(`CandleMerge.dfy`, `Backfill.dfy`, `HistorySpan.dfy`), with other writers at the same window (`MergeRaces.dfy`). A
simulator prints bars as ticks for the resampler to rebuild (`SimulatorBars.dfy`,
`SimulatorHubModel.dfy`, `SimulatorControl.dfy`, `SimulatorSessions.dfy`).

**The backtest.** An arbitrary strategy is replayed over history (`BacktestReplay.dfy`, `ReplayLaws.dfy`, bar by bar
`ReplaySteps.dfy` and position by position `ReplayStories.dfy`), its intents are filled against each bar's range
(`Execution.dfy`, `ExecutionFills.dfy`, `ExecutionLaws.dfy`, `ReplayPrices.dfy`) and the trades are folded into a report
(`Metrics.dfy`, `ReportTotals.dfy`, `ReplayReports.dfy`). `Indicators.dfy` covers the seeded smoothing strategies build
on.

`Timeframes.dfy`, `MarketData.dfy` and `Prelude.dfy` hold what everything shares. `dafny verify dfyconfig.toml`
checks the whole project.

## How it is built

- What the source updates in place is a class. Each method is proved to do what a function on values says,
  and what the source promises is proved about those functions, over whole runs, as lemmas.
- What an operation does is also said without the function that does it: a bar's legs by which level sold how much
  at the worse or the better of level and open, an answer's bars by the rows they carry, a replayed bar as a chain
  of steps each given by a relation between two states, a feed by the calls that got through to it.
- A moment is a natural number of microseconds since the epoch, the resolution of a Python `datetime`.
  Prices and sizes are real numbers; no rounding is modelled.
- A lane is one timeframe of one symbol's resampler, as a value; a feed is a lane together with what went in
  and came out. `ResamplerLanes.EveryTimeframeIsItsOwnRun` carries what is proved about a feed over to the
  class.
- An await has one of three fates: it happened, it did not, or it happened and the reply was lost. A run
  carries the list of fates to come; every list is allowed. A method answers false where the source raises.
- A run starts from any store, so also from the windows, watermarks and outbox an earlier process left. Its events
  are ticks, flushes, drains, resumed bars, joins, vendor bars, and history merged behind the live path, by the
  history loop or otherwise. A vendor bar is two events, as the service takes its lock only after the gap check:
  its callback waits in line, and anything may happen before its turn.
- A run also keeps a log no code reads: which bars were accepted, staged, published, acknowledged and repaired,
  which pushes the gap check missed, which were overtaken (no news any more when their turn came), and which bars
  merged history swallowed (a bar still to be staged that the merge's watermark has reached). The theorems about
  runs relate these lists, and `EmissionReach.AnEventLosesExactly` says of each event which bars it adds to the
  last three, from the state before it.
- The strategy and the factory's decisions (sizing, brackets, refusals) are arbitrary functions, so every
  theorem about a replay holds for all of them. The factory is held only to accepting an entry with a price,
  a positive size and a bracket that passes the entry check. The strategy is a
  function of everything it has been shown, which covers any state it keeps.

## Where the code does not meet what is said of it

- *The open positions of a replay.* A position can be displaced by an entry under its own id; it is then never
  closed. There are two ways. The factory ends a cycle on a `FLAT`, `SL` or `TP2` whatever size it names, while the
  simulator closes only that size: the id is free again and the rest of the position is still held
  (`ReplayLaws.PartialFlatLosesThePosition`). And the factory compares the id of an entry with its open cycles as it
  is spelled (src/qte_shared/strategies/signal_factory.py:355-359), but upper-cases it only afterwards
  (src/qte_shared/models.py:209-228): an open id in lower case passes and is published under the open cycle
  (`ReplayLaws.AnotherSpellingLosesThePosition`). `ReplayLaws.HoldsExactlyOpenIff` and
  `ReplayLaws.EveryTradeIsClosedAndCountedOnce` say when it does not happen: exactly when no accepted entry
  is published under an id that is still held.
- *The cost split.* A position counts as closed once no more than 1e-12 is left, and friction is then still
  charged on its whole entry size. `ExecutionLaws.CostSplitIsExactIff` gives the exact condition and
  `ExecutionLaws.DustBreaksTheCostSplit` an example.
- *A pushed bar can be lost.* The comment at src/qte_ingestion/service.py:665-666 says a Redis failure leaves a
  pushed bar with the flush loop to retry, and the one at 777-778 that a merge of the history loop is safe beside
  the live path. Four things still keep a bar from the strategies, each shown by a run in `LostPushes.dfy`.
  - The gap check reads the store before anything is retained, and a read that raises leaves the callback; the
    feed logs it and goes on (src/qte_shared/providers/mt5/feed.py:302-315). `LostPushes.AFailedReadLosesTheBar`.
  - A bar pushed after a newer one of its series is a duplicate to the watermark. `LostPushes.ALateBarIsDropped`.
  - The history loop asks with no cut (src/qte_ingestion/service.py:801), so its answer may hold the bar that has
    just ended. The merge raises the watermark to it, and the live bar, when it comes, is a duplicate: it is in the
    window and never in the outbox. `LostPushes.HistoryOvertakesAPushedBar` needs no failure;
    `MergeRaces.ACloseAfterAMergeIsStagedIff` is the exact condition for one merge.
  - A live bar whose staging failed is retained, but a gap fill or the history loop may merge the vendor's copy of
    it before it is staged. `LostPushes.MergedHistorySwallowsARetainedBar`.

  `RisingPushes.RisingPushesReachTheOutbox` says that bars pushed in rising order all get out, in order, if and only
  if no event of the run does any of this, each judged by the state before it; and
  `OvertakenPushes.ARisingPushIsOvertakenOnlyByMerges` that of such bars only those are overtaken which a merge
  behind the live path, or the store at the start, has reached.
- *Two merges at once.* The swap script checks the watermark because a live close always moves it
  (src/qte_shared/cache/redis_state.py:65-69), and no close staged while a merge runs is undone by it
  (`MergeRaces.AMergeUndoesNoClose`); a close that comes after it is another matter, as above. The history loop and
  a gap check can both merge into one series, and a merge of older bars does not move the watermark, so it can be
  undone unseen (`MergeRaces.AnOvertakenMergeIsUndone`); exactly when it is kept, the window full or not,
  `MergeRaces.AnUnnoticedMergeIsKeptIff` says.
- *Re-marking the join point.* The comment at src/qte_ingestion/service.py:515-519 says it drops the
  half-built bar; `mark_joined` only records a moment, and that is what is modelled.

## Model

| member | source | states |
|---|---|---|
| Timeframes.BucketHoldsMoment | src/qte_shared/timeframes.py:63-78 | The bucket of a moment is aligned, half-open, and holds the moment; the next bucket opens where it closes. |
| Timeframes.BucketIsUnique | src/qte_shared/timeframes.py:63-68 | No other aligned interval of that length holds the moment. |
| Timeframes.FloorIsMonotone | src/qte_shared/timeframes.py:63-68 | A later moment is never in an earlier bucket. |
| Timeframes.LengthsDivide | src/qte_shared/timeframes.py:14-22 | Every timeframe length divides every longer one. |
| Timeframes.LabelsTellTheLengths | src/qte_shared/timeframes.py:14-22 | A minute, so many minutes, hours or a day, as each label says. |
| Timeframes.BucketsNest | src/qte_shared/timeframes.py:14-22 | The coarse bucket of a moment is the coarse bucket of its fine bucket, which ends no later. |
| MarketData.PriceIs | src/qte_shared/models.py:68-83 | A trade is the price; a two-sided quote prices as far above its bid as below its ask; a one-sided one at its side; nothing else has a price. |
| ResamplerModel.BarBuilder.constructor | src/qte_ingestion/resampler.py:51-70 | A new builder shows one price as open, high, low and close, with no volume and no ticks. |
| ResamplerModel.BarBuilder.Update | src/qte_ingestion/resampler.py:72-77 | A tick moves high, low, close, volume and count of the open bar, and nothing else. |
| ResamplerModel.BarBuilder.TakeSnapshot | src/qte_ingestion/resampler.py:79-91 | The bar as built, marked closed or not. |
| ResamplerModel.Resampler.MarkJoined | src/qte_ingestion/resampler.py:116-122 | Records the moment; every lane stays as it was. |
| ResamplerModel.Resampler.Retire | src/qte_ingestion/resampler.py:162-167 | The bar goes out closed, its bucket is spent, its marker is kept if it was partial; other timeframes keep their lanes. |
| ResamplerModel.Resampler.OpenBar | src/qte_ingestion/resampler.py:157-160 | A bar opens with its first tick in it, partial exactly if its bucket opened before joining. |
| ResamplerModel.Resampler.FoldTick | src/qte_ingestion/resampler.py:131-154 | One timeframe takes the tick as TickLane says: dropped behind the watermark or the open bar, folded into it, or closing it. |
| ResamplerModel.Resampler.AddTick | src/qte_ingestion/resampler.py:124-155 | A tick moves every configured lane once and returns the bars it closed; a tick without a price changes nothing. |
| ResamplerModel.Resampler.Flush | src/qte_ingestion/resampler.py:181-193 | Closes exactly the bars whose bucket has ended, one lane at a time. |
| ResamplerModel.Resampler.TakePartial | src/qte_ingestion/resampler.py:197-203 | Answers whether the marker was there and removes it. |
| ResamplerModel.Resampler.Restore | src/qte_ingestion/resampler.py:213-234 | Replaces the open bar with the resumed one, as partial, unless its bucket has gone out. |
| ResamplerModel.TickAllPerLane | src/qte_ingestion/resampler.py:131-154 | With distinct timeframes each lane takes the tick exactly once, whatever the others do. |
| ResamplerModel.FlushAllPerLane | src/qte_ingestion/resampler.py:181-193 | Each lane is flushed exactly once, whatever the others do. |
| ResamplerRuns.NoBucketGoesOutTwice | src/qte_ingestion/resampler.py:116-167 | Over every sequence of ticks (in any order), flushes, resumed bars and joins: closed open times strictly increase, an open bar is newer than the last closed one, and partial markers are waiting or answered, never both. |
| ResamplerRuns.TakePartialAnswersOnce | src/qte_ingestion/resampler.py:197-203 | Asking answers yes exactly when the bar closed partial and was not asked about before. |
| ResamplerRuns.WhichBarsClosePartial | src/qte_ingestion/resampler.py:116-234 | Over every run, with joins and resumed bars anywhere: a bar closes partial if and only if the call that put it in hand was a resumption, or a tick whose bucket had opened before the join then in force. |
| ResamplerRuns.TakePartialAnswersForEarlyAndResumedBars | src/qte_ingestion/resampler.py:197-203 | Asking about a closed bar answers yes, once, exactly if it was resumed or begun before joining. |
| ResamplerRuns.BarsAreTicksByBucket | src/qte_ingestion/resampler.py:124-193 | For any stream: the bars are the accepted ticks grouped by bucket (first, highest, lowest, last, sum, count), one per bucket that traded, and accepted plus dropped is received. |
| ResamplerRuns.LaneIsNotAhead | src/qte_ingestion/resampler.py:132-153 | The lane never stands beyond the bucket of a moment no tick or flush is later than. |
| ResamplerRuns.InOrderDropsNothing | src/qte_ingestion/resampler.py:132-153 | When no tick is older than a tick or flush before it, none is dropped, wherever the flushes fall. |
| ResamplerRuns.ATickIsTakenOrDropped | src/qte_ingestion/resampler.py:131-154 | A tick is dropped if and only if its bucket is spent or older than the open bar; otherwise it is taken, and sends the open bar out first exactly if its bucket is newer. |
| ResamplerRuns.AFlushClosesWhatHasEnded | src/qte_ingestion/resampler.py:181-193 | A flush sends the open bar out, closed, if and only if its bucket has ended. |
| ResamplerRuns.AResumedBarGoesOn | src/qte_ingestion/resampler.py:213-234 | A resumed bar whose bucket has not gone out holds what was saved of it, with every later tick of its bucket on top: open, extremes, last price, total and count. |
| ResamplerRuns.AResumedBarGoesOut | src/qte_ingestion/resampler.py:213-234 | And goes out, once and partial, with the first flush after its bucket has ended. |
| ResamplerRuns.GroupingIsUnique | src/qte_ingestion/resampler.py:72-91 | There is only one grouping of a list of ticks into bars. |
| ResamplerRuns.FlushTimingIsIrrelevant | src/qte_ingestion/resampler.py:124-193 | Two in-order runs over the same ticks, flushed at different moments, close the same bars, and these are the grouping. |
| ResamplerLanes.TickBatchPerLane | src/qte_ingestion/resampler.py:124-155 | One tick closes at most one bar of a timeframe: the one of its own lane. |
| ResamplerLanes.FlushBatchPerLane | src/qte_ingestion/resampler.py:181-193 | One flush closes at most one bar of a timeframe. |
| ResamplerLanes.EveryTimeframeIsItsOwnRun | src/qte_ingestion/resampler.py:97-234 | Whatever is called on the resampler, each timeframe behaves as if it were alone: carries every lane theorem to the class. |
| CrossTimeframe.CombinedAggregates | src/qte_shared/timeframes.py:14-22 | The combination of fine bars is first open, highest high, lowest low, last close, total volume and total ticks. |
| CrossTimeframe.OpenBarsNest | src/qte_ingestion/resampler.py:124-155 | In any in-order run the fine open bar lies inside the coarse open bar. |
| CrossTimeframe.QuestionsChangeNoBar | src/qte_ingestion/resampler.py:197-203 | Asking about partial bars changes no bar of a timeframe. |
| CrossTimeframe.CoarseBarsAggregateFineBars | src/qte_ingestion/resampler.py:124-203 | Whatever is called on one resampler, with its ticks in order, no bar resumed, and flushes, joins and questions about partial bars anywhere: every closed coarse bar is that aggregate of the fine bars it closed inside it. |
| SimulatorBars.Checked | src/qte_simulator/bars.py:67-76 | A bar is accepted if and only if its range holds its body and its volume is not negative. |
| SimulatorBars.BarTicks | src/qte_simulator/bars.py:104-134 | Four ticks: the first at the bar's open time, each later, all before its close; from the open by low and high (high and low when it falls) to the close; the volumes sum to the bar's; a spread surrounds each price evenly. |
| SimulatorBars.FourTicksMakeTheBar | src/qte_simulator/bars.py:104-155 | First, highest, lowest, last, total and count of the four ticks are the bar's own, volume exactly. |
| SimulatorBars.BarTicksStayInTheBucket | src/qte_simulator/bars.py:112-134 | All four ticks fall into the bar's bucket. |
| SimulatorBars.SealTick | src/qte_simulator/bars.py:158-172 | The seal comes at the bar's close time, at its close, with no volume. |
| SimulatorBars.PastEndsOnTheLastCompletedBucket | src/qte_simulator/bars.py:218-220 | A run anchored in the past is contiguous, aligned, and ends where the current bucket opens. |
| SimulatorBars.NextStartsBeyondTheSeries | src/qte_simulator/bars.py:221-223 | A run anchored next is contiguous and aligned, starts after the last touched bucket and not before the current one, and no later than it must. |
| SimulatorBars.BarIsRebuilt | src/qte_simulator/bars.py:104-155 | A bar's ticks, heard by any lane holding nothing as new, leave exactly that bar open. |
| SimulatorBars.RunIsRebuilt | src/qte_simulator/bars.py:104-155 | A contiguous aligned run sends out whatever was open and then its bars in order, the last one open. |
| SimulatorBars.SealedRunClosesItsBars | src/qte_simulator/bars.py:137-172 | With the seal, every bar that went in comes out, in order and field for field, and nothing is dropped. |
| SimulatorBars.FreshResamplerClosesTheRun | src/qte_simulator/bars.py:137-172 | A fresh resampler closes the expected candles and nothing else. |
| SimulatorHubModel.SimulatorHub.Publish | src/qte_simulator/hub.py:88-97 | Counts the tick, remembers its price and time for its symbol, and puts it on the wire. |
| SimulatorHubModel.SimulatorHub.PublishAll | src/qte_simulator/hub.py:113-122 | All of them, in order. |
| SimulatorHubModel.PublishingAppends | src/qte_simulator/hub.py:88-122 | A run of ticks is appended to the wire, the last one is remembered, cursors and bar count stay. |
| SimulatorHubModel.SimulatorHub.AdvanceCursor | src/qte_simulator/hub.py:129-139 | The cursor moves forward or stays. |
| SimulatorHubModel.CursorNeverMovesBack | src/qte_simulator/hub.py:129-139 | A cursor ends at the later of where it was and the bar it was told about; others stay. |
| SimulatorControl.PlayBars | src/qte_simulator/control.py:128-205 | A refused command changes nothing and says why; an accepted one plays the bars where it was asked to place them and answers with their expected candles. |
| SimulatorControl.PlayRun | src/qte_simulator/control.py:165-185 | Bar after bar, then the seal, which moves the cursor onto the bucket it opened. |
| SimulatorControl.CommandSendsItsTicks | src/qte_simulator/control.py:165-185 | A command puts exactly its ticks on the wire, counts its bars, and moves the cursor to the last bucket touched. |
| SimulatorControl.ResolveOpenTimes | src/qte_simulator/control.py:208-253 | The open times of each anchor: past, next from the end of the series, an explicit start, or a refusal. |
| SimulatorControl.RowBarsAreARun | src/qte_simulator/control.py:150-163 | Bars read from rows at contiguous aligned times are valid, contiguous and aligned. |
| SimulatorControl.PlacedBarsAreARun | src/qte_simulator/control.py:141-235 | Whatever its anchor, an accepted command plays a run. |
| SimulatorControl.ACommandPlaysItsRows | src/qte_simulator/control.py:128-163 | A command is refused for no bars, too many, a place that cannot be read, or a row that could not print; any other plays every row, each field as it was sent. |
| SimulatorControl.BarsArePlacedWhereAsked | src/qte_simulator/control.py:208-253 | A run is one bucket apart, up to the last completed bucket, or from the first bucket the series has left free that has not ended, or from the bucket of the moment named. |
| SimulatorControl.ATickIsSentAsGiven | src/qte_simulator/control.py:87-122 | A tick command sends the quote it was given, at its stamp, or now, or a millisecond after the last tick of its symbol if that is later. |
| SimulatorControl.TheReplyIsWhatComesOut | src/qte_simulator/control.py:195-205 | A lane with nothing as new closes exactly the candles a sealed command announced, whatever its anchor. |
| SimulatorControl.SendTick | src/qte_simulator/control.py:87-122 | A stamped tick happens at its stamp; an unstamped one now or just after the series, whichever is later; without a price it is refused. |
| SimulatorSessions.CommandTicksClimb | src/qte_simulator/bars.py:104-172 | The ticks of a command rise strictly from the first bar's open to the last touched bucket. |
| SimulatorSessions.AnchorClearsEveryTimeframe | src/qte_simulator/bars.py:221-223 | A "next" anchor is in a newer bucket of every timeframe whose last bucket the clock has passed. |
| SimulatorSessions.SessionStands | src/qte_simulator/control.py:109-253 | Where every lane and cursor stands after any session. |
| SimulatorSessions.SessionsAreNeverLate | src/qte_simulator/control.py:109-253 | Any session of next-anchored runs and unstamped ticks, with flushes between, under a clock that does not run backwards: each symbol's ticks rise strictly and no timeframe drops any. |
| SimulatorSessions.SealedRunIsExactInAnySession | src/qte_simulator/control.py:165-205 | Wherever in a session a sealed run is played, the resampler closes exactly its bars after whatever was open. |
| CandleStore.StagingIsAllOrNothing | src/qte_shared/cache/redis_state.py:28-54 | A bar not newer than the watermark changes nothing; any other ends its window, trimmed to the newest, the outbox and the watermark, and takes the place of its own saved open bar but of no other. |
| CandleStore.RedisState.StageClosedCandle | src/qte_shared/cache/redis_state.py:28-54 | History, outbox and watermark move together, or not at all for a bar not newer than the watermark. |
| CandleStore.RedisState.PeekPendingCandle | src/qte_shared/cache/redis_state.py:243-246 | The oldest staged bar, left where it is. |
| CandleStore.RedisState.AckPendingCandle | src/qte_shared/cache/redis_state.py:248-250 | Takes the oldest staged bar off the outbox. |
| CandleStore.RedisState.SetOpenCandle | src/qte_shared/cache/redis_state.py:382-388 | The bar being built is saved for a restart, beside everything else. |
| Emission.RepairedBarIsWhole | src/qte_ingestion/repair.py:173-184 | A repaired bar holds its body, covers what either side saw, opens at the vendor's open and keeps bucket, volume and count; its close is the engine's if it was listening then, and the vendor's otherwise. |
| EmissionLaws.StageKeepsGood | src/qte_ingestion/service.py:1050-1053 | Staging a bar, acknowledged or not, stages it once and in its place. |
| EmissionLaws.RepairKeepsGood | src/qte_ingestion/service.py:1056-1064 | Repair completes the retained partial bar and marks it whole. |
| EmissionLaws.SendOutKeepsGood | src/qte_ingestion/service.py:1050-1067 | Both passes and both drains keep every series in order; if none raises, nothing is left retained or in the outbox. |
| EmissionLaws.RetainKeepsGood | src/qte_ingestion/service.py:1037-1048 | A retired bar is retained with its partial flag, asked for once. |
| EmissionLaws.EmitKeepsGood | src/qte_ingestion/service.py:1021-1067 | The whole emission, whatever fails in it. |
| EmissionRuns.NothingIsLostOrReordered | src/qte_ingestion/service.py:636-1067 | For a series fed by ticks, over every run from any store with any awaits failing or losing their replies: of the bars a resampler closed that are newer than the watermark at the start, the n-th is the n-th bar staged, whole or completed; at most the newest is outstanding, and it is retained. |
| EmissionRuns.EachPartialBarIsRepairedOnce | src/qte_ingestion/service.py:1054-1064 | Each partial bar is handed to the repairer once, as built and before it is staged, and no whole bar ever is. |
| EmissionRuns.NothingIsRetiredWhileBarsAreHeld | src/qte_ingestion/service.py:636-642 | A tick or flush closes a bar only if nothing was retained or everything retained has gone out. |
| EmissionRuns.EmitToTheEnd | src/qte_ingestion/service.py:1050-1067 | An emission that raises nothing leaves nothing retained and the outbox empty. |
| EmissionRuns.TheOutboxLosesNothing | src/qte_ingestion/service.py:1069-1091 | For every series, whoever feeds it, from any store: staged open times strictly increase from the watermark at the start; what the outbox held then and all staged since is acknowledged or in the outbox, in order; every acknowledged bar was published. |
| EmissionProgress.FirstPassStagesExactly | src/qte_ingestion/service.py:1050-1053 | A first pass that ends has staged, series by series and in order, exactly the whole bars newer than the watermark and than the whole bars before them. |
| EmissionProgress.WholeBarsGoOutBeforeAnyRepair | src/qte_ingestion/service.py:1021-1029 | By the time the first repair starts exactly those bars have been staged, and all that was staged is published and acknowledged. |
| EmissionProgress.OneGoodFlushCatchesUp | src/qte_ingestion/service.py:988-1009 | After any start and any failures, one flush with nothing failing leaves every bar a tick-fed series closed that the store did not have at the start staged in order, and everything staged or left over acknowledged. |
| ServiceFeeds.ATickReachesItsSeries | src/qte_ingestion/service.py:636-986 | One tick, whatever the state and whatever fails: every configured series of its symbol counts it late or takes it in, with its time, volume and worth, if and only if it has a worth and the awaits before the fold succeeded; every other series keeps its bars. |
| ServiceFeeds.AFlushReachesEverySeries | src/qte_ingestion/service.py:988-1009 | One flush: a series sends its open bar out if and only if its bucket has ended and what was retained has gone out. |
| ServiceFeeds.EveryFeedIsWhatItHeard | src/qte_ingestion/service.py:636-1016 | Over every run from any store a series holds, has closed and has dropped exactly what its resampler would have, called with the ticks, flushes, joins and resumed bars that got through, in their order, and with nothing else. |
| ServiceFeeds.TicksBecomeStagedBars | src/qte_ingestion/service.py:636-1067 | From ticks to staged bars: the bars of a tick-fed series are the ticks that got through grouped by bucket, all of them when they came in order, and the n-th of those closed that the store did not have is the n-th staged. |
| ServiceFeeds.NothingIsInTheWay | src/qte_ingestion/service.py:636-642 | With nothing failing every tick gets in. |
| ServiceFeeds.OneGoodTickLeavesNothing | src/qte_ingestion/service.py:636-986 | A tick in which nothing fails leaves nothing retained and the outbox empty, and every open bar of its symbol saved where that is configured. |
| ServiceFeeds.OneGoodTickCatchesUp | src/qte_ingestion/service.py:636-986 | After any start and any failures one such tick catches its series up: everything closed is staged in order and acknowledged, and the open bar is saved. |
| ServiceEvents.APushedBarAsksExactlyWhen | src/qte_ingestion/service.py:813-857 | A pushed bar asks for history if and only if it is over, leaves a gap and its series was not asked about within the cooldown; then the answer is merged, cut off at the bar, and what is owed is noted; otherwise the store is left alone. |
| ServiceEvents.TheHistoryLoopMergesTheAnswer | src/qte_ingestion/service.py:768-803 | The history loop merges the answer with nothing cut off and notes what is still owed. |
| ServiceEvents.AMergeIsTheScript | src/qte_shared/cache/redis_state.py:287-349 | Other bars merged behind the live path are the merge script on the bars of that series, unless it was refused. |
| ServiceEvents.FatesMeanWhatTheySay | src/qte_ingestion/service.py:1050-1091 | An await that fails changes nothing in the store and publishes nothing; one whose reply is lost has happened. |
| ServiceEvents.AGoodDrainSendsTheOutbox | src/qte_ingestion/service.py:1069-1091 | A drain in which nothing fails publishes what the outbox holds, each bar once and in order, and acknowledges exactly that. |
| ServiceEvents.SecondPassStagesWhatTheRepliesComplete | src/qte_ingestion/service.py:1054-1064 | The second pass asks for each bar left, one reply each in their order, and stages what came of it under the flag the bar was retired with. |
| ServiceEvents.TheFlagSaysWhoRetiredIt | src/qte_ingestion/service.py:988-1048 | Whose close a repair keeps is settled when a bar is retired and never changes: a tick or a pushed bar is the later price, a flush is what it was told it is. |
| EmissionWindows.EveryRunKeepsWindows | src/qte_shared/cache/redis_state.py:28-54 | Over every run of ticks, flushes, pushed bars with their gap fills and merges of history, whatever fails: a window that was sorted with the watermark at its newest bar stays so. |
| EmissionWindows.EmptyWindow | src/qte_shared/cache/redis_state.py:28-54 | Which every window of an empty store is. |
| EmissionPushes.AcceptedBarsAreStagedOrOnTheirWay | src/qte_ingestion/service.py:644-667 | For a series fed with bars, in any order, from any store and whatever fails: the bars accepted, less those that merged history swallowed, are exactly the bars staged followed by the bars retained and still to be staged, in order. |
| EmissionPushes.APushedBarWaitsExactlyWhen | src/qte_ingestion/service.py:644-663 | A pushed bar gets in line for the lock if and only if its bucket is over and the gap check's read did not raise; if that raised it is missed. |
| EmissionPushes.FillingKeepsTheNews | src/qte_ingestion/service.py:813-857 | The gap check makes no old news of the close that asked, and no news either. |
| EmissionPushes.APushedBarIsAcceptedExactlyWhen | src/qte_ingestion/service.py:664-667 | When its turn comes a pushed bar is accepted if and only if it is newer than its watermark and than every bar of its series retained; otherwise it is overtaken. |
| EmissionPushes.AGapIsAlwaysNews | src/qte_ingestion/service.py:813-834 | A close that does not follow the newest stored bar is newer than its watermark: only a retained bar at or beyond it is in its way. |
| EmissionPushes.OneGoodFlushSendsTheAccepted | src/qte_ingestion/service.py:988-1009 | After any failures, one flush with nothing failing leaves every bar accepted and not swallowed staged in order and acknowledged. |
| EmissionReach.AnEventLosesExactly | src/qte_ingestion/service.py:636-857 | Every event, in any state, loses exactly what a look at that state says: its own push if the gap check's read raises, the push whose turn it is if its series has reached it, and the bars on their way that its write reaches. |
| EmissionReach.NoneIsLostIffNoEventLoses | src/qte_ingestion/service.py:636-857 | A run has lost no bar of a series if and only if none of its events, in the state before it, loses one. |
| RisingPushes.RisingPushesReachTheOutbox | src/qte_ingestion/service.py:644-857 | For bars pushed in rising open time, from any store, with other callbacks and merges of history anywhere between: what was pushed is what is staged, then what is still to be staged, then what waits for the lock, in order, if and only if no event of the run loses a bar; otherwise it is that, less the bars lost. |
| OvertakenPushes.ARisingPushIsOvertakenOnlyByMerges | src/qte_ingestion/service.py:644-857 | When its turn comes, a bar pushed in rising order is accepted if and only if it is newer than the watermark at the start and than every bar written behind the live path since. |
| OvertakenPushes.AGapCheckSparesItsBar | src/qte_ingestion/backfill.py:349-355 | What a bar's own gap check writes is older than the bar. |
| LostPushes.AFailedReadLosesTheBar | src/qte_ingestion/service.py:663-667 | A push whose gap check cannot read the store is neither retained nor staged, nor does it wait. |
| LostPushes.ALateBarIsDropped | src/qte_ingestion/service.py:644-667 | A bar pushed after a newer one of its series is never staged, with nothing failing. |
| LostPushes.MergedHistorySwallowsARetainedBar | src/qte_ingestion/service.py:813-857 | A run in which a live bar retained after a failed staging is never staged, because the gap fill of the next bar merges the vendor's copy past it. |
| LostPushes.HistoryOvertakesAPushedBar | src/qte_ingestion/service.py:768-803 | A run with no failure in which the history loop merges a bar that has just ended, and the live bar, arriving after it, is never staged. |
| IngestionServiceModel.IngestionService.StageCandle | src/qte_ingestion/service.py:1050-1053 | One staging under each fate of its await. |
| IngestionServiceModel.IngestionService.DrainCandleOutbox | src/qte_ingestion/service.py:1069-1091 | The loop publishes oldest first and acknowledges only what it published, and stops at the first failure. |
| IngestionServiceModel.IngestionService.RetainAll | src/qte_ingestion/service.py:1037-1048 | The whole batch is retained before the first await. |
| IngestionServiceModel.IngestionService.StageWholeBars | src/qte_ingestion/service.py:1050-1053 | First pass: whole bars are staged and forgotten in order, partial ones skipped. |
| IngestionServiceModel.IngestionService.RepairBars | src/qte_ingestion/service.py:1056-1065 | Second pass: what is left is completed, staged and forgotten. |
| IngestionServiceModel.IngestionService.EmitCandles | src/qte_ingestion/service.py:1021-1067 | Retain, stage, drain, repair, and drain again if anything was repaired. |
| IngestionServiceModel.IngestionService.MoveResamplers | src/qte_ingestion/service.py:1011-1016 | Every selected lane moves once; the bars closed come in configured order. |
| IngestionServiceModel.IngestionService.HandleTick | src/qte_ingestion/service.py:636-642 | Clears what is retained, remembers and announces the tick, then folds and emits it; any failure stops it there. |
| IngestionServiceModel.IngestionService.SaveOpenCandles | src/qte_ingestion/service.py:984-986 | The open bars of a symbol are saved in order, up to the first failure. |
| IngestionServiceModel.IngestionService.FoldAndEmit | src/qte_ingestion/service.py:965-986 | The tick is folded, what closed is emitted, and the open bars are saved whether or not that raised. |
| IngestionServiceModel.IngestionService.FlushCycle | src/qte_ingestion/service.py:988-1009 | Clears what is retained, then closes ended bars and emits them. |
| IngestionServiceModel.IngestionService.WarmSeries | src/qte_ingestion/service.py:720-766 | What the answer changes is written, under the fate of the write, and the series is owed or settled. |
| IngestionServiceModel.IngestionService.WarmOwedSeries | src/qte_ingestion/service.py:768-803 | One series of the history loop, asked for with no cut. |
| IngestionServiceModel.IngestionService.FillGap | src/qte_ingestion/service.py:813-857 | Reads the newest stored bar, and asks unless the close follows it or the series was asked about within the cooldown. |
| IngestionServiceModel.IngestionService.CheckVendorBar | src/qte_ingestion/service.py:644-663 | A bar whose bucket has not ended is dropped; for any other the gap before it is filled and its callback waits for the lock, unless the gap check raised. |
| IngestionServiceModel.IngestionService.EmitVendorBar | src/qte_ingestion/service.py:664-667 | The callback that came first takes the lock and emits its bar. |
| ConcurrentDrain.ActIsOrderly | src/qte_ingestion/service.py:1077-1091 | Every step of every drainer and stager keeps the protocol invariant. |
| ConcurrentDrain.AckedBarsWerePublishedInOrder | src/qte_ingestion/service.py:1069-1091 | Under the lock, over every interleaving and failure: an acknowledged bar was published, only the oldest unacknowledged bar is ever published, so first publications follow staging order and the only repeats are of an unacknowledged head. |
| ConcurrentDrain.StagingIsNeverMissed | src/qte_ingestion/service.py:1077-1091 | Every bar staged is in the books, in the order it was. |
| ConcurrentDrain.ADrainerEmptiesTheOutbox | src/qte_ingestion/service.py:1077-1091 | It is never stuck: from any state of the protocol a drainer that has the lock or can take it, with nothing failing, publishes and acknowledges everything staged and lets the lock go. |
| ConcurrentDrain.WithoutTheLockABarIsLost | src/qte_ingestion/service.py:1077-1083 | Without the lock there is an interleaving that acknowledges a bar never published. |
| CandleMerge.MergeCandles | src/qte_ingestion/backfill.py:515-530 | The dictionary loops compute the merge. |
| CandleMerge.InOpenTimeOrder | src/qte_ingestion/backfill.py:530 | The dictionary read out by rising open time. |
| CandleMerge.MergeIsTheUnion | src/qte_ingestion/backfill.py:515-530 | For any two lists the merge is strictly sorted and its times are exactly the union. |
| CandleMerge.ChosenIs | src/qte_ingestion/backfill.py:525-529 | What the merge holds at a time comes from one of the lists, and a bar without ticks gives way to a fetched one. |
| CandleMerge.MergePrefersBuiltBars | src/qte_ingestion/backfill.py:515-530 | A held bar built from ticks stays, a held vendor bar gives way to a fresh copy, everything else comes in. |
| CandleMerge.MergeAgainChangesNothing | src/qte_ingestion/backfill.py:515-530 | Merging the same answer again changes nothing, for any lists. |
| CandleMerge.ChangedBarsAreEnough | src/qte_ingestion/backfill.py:395-401 | Overlaying only the changed bars on what was held gives the whole merge, for any lists. |
| Backfill.Usable | src/qte_ingestion/backfill.py:349-355 | Only finished bars of the series, only before the cut, and none with a tick count. |
| Backfill.UsableIsTheReadyRows | src/qte_ingestion/backfill.py:491-512 | What is usable of an answer is exactly its rows whose bucket has ended and that open before the cut, none missing and in order, each with its own open, high, low, close and volume. |
| Backfill.AWindowIsAskedForIff | src/qte_ingestion/backfill.py:288-300 | A window is asked for if and only if it is short or its newest bar is not the last that has ended. |
| Backfill.TheWindowTakesTheAnswer | src/qte_ingestion/backfill.py:349-406 | Afterwards the window holds, field for field, the bar each such row stands for, unless one built from ticks is held at its time, which stays, or the window is full of newer bars. |
| Backfill.NothingElseGetsIn | src/qte_ingestion/backfill.py:349-406 | And every bar in it was held before or stands for such a row; a bar held at a time no row has is there or trimmed. |
| Backfill.WhatIsStillOwed | src/qte_ingestion/service.py:720-766 | A series is settled if its window was not short, the vendor does not carry it, or the answer brought nothing new or was written; otherwise it is owed, and the vendor is off line exactly if it did not answer. |
| Backfill.ACachedAnswerRewritesTheWindow | src/qte_ingestion/backfill.py:386-391 | A cached source rewrites the window with the merge and moves no watermark. |
| Backfill.MergedInIs | src/qte_shared/cache/redis_state.py:320-349 | The merge script rewrites the window with the overlay and raises the watermark to the newest incoming bar, never lowering it. |
| Backfill.ChangedComesFromTheVendor | src/qte_ingestion/backfill.py:395-401 | What is written behind the watermark comes from the answer alone. |
| Backfill.StagingKeepsWindow | src/qte_shared/cache/redis_state.py:28-54 | Staging keeps every window sorted with the watermark at its newest bar; a bar that is no duplicate ends its own. |
| Backfill.GapFillNeverSwallowsItsTrigger | src/qte_ingestion/backfill.py:276-416 | Whatever is answered, fetched, empty, refused or failed, and whatever becomes of the write: the window stays sorted and the live close is a duplicate after the request exactly if it was before. |
| Backfill.ACloseAfterAGapIsNew | src/qte_ingestion/service.py:831-834 | A close that does not follow the newest stored bar is no duplicate. |
| Backfill.AskingMergesTheAnswer | src/qte_ingestion/backfill.py:349-406 | An answered request whose write is not refused leaves the window merged with the usable bars of the answer, and trimmed. |
| Backfill.CloseIsStagedAfterItsGap | src/qte_ingestion/service.py:813-857 | So a close that does not follow the newest stored bar is staged, at the end of a sorted window that ends before it and is merged with what the vendor answered. |
| Backfill.WithoutTheCutTheCloseIsDropped | src/qte_ingestion/backfill.py:349-355 | Without the cut at the close's open time an answer can make it a duplicate. |
| Backfill.HistoryBackfiller.MergeHistoryCandles | src/qte_shared/cache/redis_state.py:287-349 | The merge of bars into a window that nobody else is writing. |
| Backfill.HistoryBackfiller.BackfillSeries | src/qte_ingestion/backfill.py:276-416 | A full and current window is left alone unless the refresh is forced; otherwise the answer decides, under the fate of its write. |
| Backfill.HistoryBackfiller.PlanMerge | src/qte_ingestion/backfill.py:356-394 | Nothing usable or nothing new is nothing to write; otherwise the merged window and what changed in it. |
| Backfill.HistoryBackfiller.PlanBackfill | src/qte_ingestion/backfill.py:290-355 | What there is to write for a series, from the window held and the answer. |
| Backfill.HistoryBackfiller.CarryOut | src/qte_ingestion/backfill.py:386-406 | A cached source rewrites the window; a bar feed merges what changed behind the watermark. |
| MergeRaces.OnlyMergesGoUnnoticed | src/qte_shared/cache/redis_state.py:57-89 | Every write to the store but another merge of the same series leaves its window alone or moves its watermark. |
| MergeRaces.AMergeIsNoticedIff | src/qte_shared/cache/redis_state.py:57-89 | Another merge is noticed if and only if it raises the watermark or changes nothing. |
| MergeRaces.AMergeIsOneStep | src/qte_shared/cache/redis_state.py:287-380 | With any noticed writes between its reads and its swaps, a merge goes in as one step after all of them, or gives up having written nothing, and that exactly when the watermark moved under every attempt. |
| MergeRaces.AMergeUndoesNoClose | src/qte_shared/cache/redis_state.py:296-380 | So a merge undoes no close that is staged while it runs, however many there are. |
| MergeRaces.ACloseAfterAMergeIsStagedIff | src/qte_shared/cache/redis_state.py:313-318 | A close that comes after a merge is staged if and only if it would have been before it and every merged bar is older. |
| MergeRaces.AMergedCopyTakesTheClose | src/qte_shared/cache/redis_state.py:313-318 | The vendor's copy of a bar, merged with no cut before the live bar comes, takes its place in the window and keeps it out of the outbox. |
| MergeRaces.AnUnnoticedMergeIsKeptIff | src/qte_shared/cache/redis_state.py:57-89 | Of two merges of older bars at once, the one overtaken is kept if and only if every bar it changed opens when a bar of the other does, or has a full window of newer bars and is trimmed off anyway. |
| MergeRaces.AnOvertakenMergeIsUndone | src/qte_shared/cache/redis_state.py:57-89 | Two merges at once, after which a merged bar is missing and both have succeeded. |
| MergeRaces.WindowMerger.MergeHistoryCandles | src/qte_shared/cache/redis_state.py:287-380 | Reads, orders and swaps up to three times, under any writes of others in between. |
| HistorySpan.FiveDaysInSeven | src/qte_ingestion/backfill.py:84-86 | Any run of days on a five-day week holds at least five sevenths of them, less ten sevenths, wherever the weekend falls. |
| HistorySpan.SpanHoldsEnoughSessions | src/qte_ingestion/backfill.py:434-441 | The span holds the target on a five-day week, with two holidays taken out, even rounded down by a day. |
| HistorySpan.SpanHoldsEnoughDays | src/qte_ingestion/backfill.py:434-441 | And on a market that never closes, without the factor. |
| Execution.FillSimulator.OpenPosition | src/qte_backtest/execution.py:229-263 | A position opens at the costed price with its entry fee and its whole size remaining. |
| Execution.FillSimulator.Close | src/qte_backtest/execution.py:385-415 | A close takes what is asked or what is left, whichever is less, and nothing for no size. |
| Execution.FillSimulator.TakeTp1 | src/qte_backtest/execution.py:311-325 | The first target takes its share and may move the stop to the entry. |
| Execution.FillSimulator.ProcessBar | src/qte_backtest/execution.py:267-337 | One bar: excursion, then stop, else first target, else or then second. |
| Execution.FillSimulator.CloseAt | src/qte_backtest/execution.py:339-358 | A discretionary close of an open position at the costed price. |
| ExecutionFills.AStopSellsEverything | src/qte_backtest/execution.py:267-308 | A bar that reaches the stop sells all that is left there and nothing else: at the worse of stop and open, less half the spread and slippage. |
| ExecutionFills.TargetsSellTheirShares | src/qte_backtest/execution.py:310-337 | Otherwise the first target takes its share of the entry, all of it when none is configured, once and at the better of target and open; and the second what is left, if that is more than dust. |
| ExecutionFills.ACloseSellsWhatItNames | src/qte_backtest/execution.py:339-358 | A close sells what it names, or everything, but no more than is left, at the price it names. |
| ExecutionFills.AClosedPositionStays | src/qte_backtest/execution.py:267-358 | Once closed, a position is left alone by every bar and every close. |
| ExecutionFills.AnEntryPaysItsHalf | src/qte_backtest/execution.py:229-263 | An entry is filled on the far side of half the spread and slippage and pays commission on its size. |
| ExecutionFills.NetIsWhatTheExitsMade | src/qte_backtest/execution.py:140-153 | Whatever happens to an entry, its net is what its exits made at quoted prices, less the round trip on what was sold, less commission on the entry and on what was sold. |
| ExecutionLaws.BooksAgree | src/qte_backtest/execution.py:385-415 | Gross, fees, legs, their prices and remaining size agree with the raw exits behind them, over any sequence of bars and closes. |
| ExecutionLaws.SizeIsConserved | src/qte_backtest/execution.py:385-415 | Legs plus remaining is the entry quantity, remaining is never negative, every leg closed something. |
| ExecutionLaws.CostsAreRecovered | src/qte_backtest/execution.py:53-60 | Net plus round trip plus fees is the profit at un-costed prices plus the round trip on what never traded out. |
| ExecutionLaws.CostSplitIsExactIff | src/qte_backtest/metrics.py:214-253 | So the decomposition is exact if and only if nothing is left or the round trip costs nothing. |
| ExecutionLaws.DustBreaksTheCostSplit | src/qte_backtest/execution.py:135-137 | A position closed down to dust shows the split is not exact in general. |
| ExecutionLaws.ExcursionIsTheRangeLivedThrough | src/qte_backtest/execution.py:281-296 | Worst and best price are the extremes of the entry and every bar lived through, the closing bar included; bars held counts those bars. |
| ExecutionLaws.BracketFillsInsideTheBar | src/qte_backtest/execution.py:362-383 | Every leg a bar books, at the stop or at either target, gap or no gap, is sold before costs at a price inside the bar's range, at the bar's time. |
| ExecutionLaws.AnyOrderIsNoWorse | src/qte_backtest/execution.py:267-337 | Filling the touched levels in any order books no less than being stopped out of everything. |
| ExecutionLaws.StopFirstIsALowerBound | src/qte_backtest/execution.py:267-337 | When a bar touches the stop, what process_bar books is no more than under any order of filling the touched levels, if the stop is not beyond the entry. |
| ExecutionLaws.CheckedBracketsKeepTheBound | src/qte_shared/models.py:247-284 | A bracket that passes validation keeps that condition through every bar and close, at any cost not below zero. |
| ExecutionLaws.StopBeyondEntryBreaksTheBound | src/qte_backtest/execution.py:267-337 | Why that condition is asked for: without it another order of fills can book less. |
| Metrics.LongestRun | src/qte_backtest/metrics.py:302-309 | The loop finds the length of the longest contiguous winning or losing segment. |
| Metrics.LongestRunIsUnique | src/qte_backtest/metrics.py:302-309 | There is only one such length. |
| Metrics.WinsAndLossesAreTheNet | src/qte_backtest/metrics.py:130-141 | Gross profit and gross loss add up to the net. |
| Metrics.WinsAreAboveZeroLossesBelow | src/qte_backtest/metrics.py:131-132 | A win is a result above zero and a loss one below, each listed as often as it occurred. |
| Metrics.CurveEndsAtStartPlusNet | src/qte_backtest/metrics.py:153-174 | The equity curve ends at the start plus the net. |
| Metrics.DrawdownIsUnique | src/qte_backtest/metrics.py:153-171 | The maximum drawdown over all ordered pairs is one number. |
| Metrics.BacktestMetrics.AddHeadline | src/qte_backtest/metrics.py:130-151 | Counts, sums and ratios of the closed trades. |
| Metrics.BacktestMetrics.WalkEquity | src/qte_backtest/metrics.py:153-180 | The loop computes the equity curve, the largest fall between any two points in order, in money and in percent of the peak, and the losing streak. |
| Metrics.BacktestMetrics.AddRiskNormalised | src/qte_backtest/metrics.py:191-211 | Total and mean R over the trades that had a stop, the mean winning and losing R, and their ratio. |
| Metrics.BacktestMetrics.AddCostEconomics | src/qte_backtest/metrics.py:214-253 | Friction, total cost, profit before costs, and the expectancy with friction added back. |
| Metrics.FillResults | src/qte_backtest/metrics.py:117-180 | The report of a list of closed trades is what the specification says of that list. |
| Metrics.FillCosts | src/qte_backtest/metrics.py:183-253 | The risk and cost half of the report is what the specification says of the list. |
| Metrics.ComputeMetrics | src/qte_backtest/metrics.py:117-188 | Only positions with a leg are reported; none gives the empty report. |
| Metrics.CostRIsWhatCostsTook | src/qte_backtest/metrics.py:214-253 | For any trade with a stop, net R plus cost R is the R at quoted prices, plus the round trip on whatever size never traded out. |
| Metrics.ExpectancyBeforeCostsIsMeanRawR | src/qte_backtest/metrics.py:241-253 | Over any list of trades, with stops or without: the report's expectancy before costs is the mean R at quoted prices of those that had one, plus the round trip on what they left open; exactly the mean when they left nothing. |
| ReportTotals.AReportAddsUp | src/qte_backtest/metrics.py:117-253 | Every total of a report over any list of trades, computed from their entries and exits alone: net, wins, losses, rate, fees, friction, curve, drawdowns and streaks; and with costs added back the net is what was made at quoted prices, plus the round trip on what was never sold. |
| ReportTotals.AnRIsTheResultOverTheRisk | src/qte_backtest/execution.py:208-218 | A trade's R is what it made over the distance from its fill to its stop, on its size. |
| BacktestReplay.BacktestEngine.ProcessHeld | src/qte_backtest/replay.py:290-291 | Every held position, and no other, is walked through the bar. |
| BacktestReplay.BacktestEngine.DropClosed | src/qte_backtest/replay.py:441-443 | Only open positions stay held. |
| BacktestReplay.BacktestEngine.SyncCycle | src/qte_backtest/replay.py:445-460 | Cycles whose position is gone are forgotten, the rest take what the fills left. |
| BacktestReplay.BacktestEngine.Fill | src/qte_backtest/replay.py:405-437 | What was published is filled: an entry under its id, a close on the position held under its id. |
| BacktestReplay.BacktestEngine.Apply | src/qte_backtest/replay.py:388-439 | A refused intent is counted by kind and changes nothing else; an accepted one is published, filled and synced. |
| BacktestReplay.BacktestEngine.FlattenForTheWeekend | src/qte_backtest/replay.py:366-386 | One FLAT for every cycle the factory held when the market shut. |
| BacktestReplay.BacktestEngine.ReplayBar | src/qte_backtest/replay.py:286-311 | One bar: fills, then the strategy on its window, then the calendar. |
| BacktestReplay.BacktestEngine.MarkOut | src/qte_backtest/replay.py:313-322 | What is still held is closed at the last close. |
| BacktestReplay.BacktestEngine.Run | src/qte_backtest/replay.py:250-322 | No history or too little is an error; otherwise the bars from the warm-up on, and the mark-out. |
| ReplaySteps.EveryBarIsDone | src/qte_backtest/replay.py:286-311 | Every bar of every run, from the state the bar before it left: each held position is met by the bar and no other, the strategy is shown the window and the cycles, each of its intents in turn is blocked, refused or filled as published, and in a shut market a FLAT for every cycle left follows; what is held and what the factory remembers is said after each step. Before the warm-up is over nothing happens. |
| ReplaySteps.TheRunEndsMarkedOut | src/qte_backtest/replay.py:250-322 | A run ends with what is still held sold at the last close; there is none without history, nor with less of it than the warm-up. |
| ReplayStories.EveryPositionLivesItsBars | src/qte_backtest/replay.py:286-437 | In every run, for any strategy and any factory: behind every position is an entry the strategy asked for on the bar it was entered, on the side it asked for, at the price, size and bracket published; and the bars among all that happened to it are exactly those it was held through, in order and counted. |
| ReplayStories.EveryHeldPositionMeetsItsBar | src/qte_backtest/replay.py:290-291 | A position held before a bar whose range reaches its stop is sold there, whole, and held no more, whatever the strategy says; one that is not held is not touched. |
| ReplayLaws.EveryEntryIsAccountedFor | src/qte_backtest/replay.py:302-306 | For any strategy: every entry intent it ever emitted is exactly one of filled, rejected and blocked, and every intent put to the factory was published or refused. |
| ReplayLaws.FactoryAgreesWithFills | src/qte_backtest/replay.py:445-460 | After every bar every cycle the factory holds is a position held open, of the same remaining size and first-target flag. |
| ReplayLaws.HoldsExactlyOpenIff | src/qte_backtest/replay.py:405-443 | After every bar the engine holds exactly the open positions, if and only if no accepted entry named an id still held. |
| ReplayLaws.OnlyReuseDisplaces | src/qte_backtest/replay.py:388-422 | One intent at a time, that is decided by a look at what is held before the entry is filled. |
| ReplayLaws.PartialFlatLosesThePosition | src/qte_shared/strategies/signal_factory.py:231-288 | It can happen: a FLAT of less than everything ends the factory's cycle, the id is free again, and the rest of the position is lost from view. |
| ReplayLaws.AnotherSpellingLosesThePosition | src/qte_shared/strategies/signal_factory.py:353-360 | It can happen with nothing forgotten: an entry that spells the id of an open cycle otherwise is accepted and published under it, and the position held there is lost from view. |
| ReplayLaws.LowerCaseIsAnotherSpelling | src/qte_shared/models.py:199-228 | There are such ids: lower case is upper-cased only after the check. |
| ReplayLaws.EveryTradeIsClosedAndCountedOnce | src/qte_backtest/replay.py:313-344 | At the end every position is closed, if and only if no id was reused; and then the report counts each position bigger than dust exactly once. |
| ReplayLaws.EveryPositionIsAPlayedTrade | src/qte_backtest/replay.py:405-437 | Every position a run reports is an entry followed by bars and closes, so every law of a fill holds of it. |
| ReplayLaws.StopFirstIsALowerBoundInEveryRun | src/qte_backtest/replay.py:290-291 | At every bar of every run, at costs that are not negative, what stop-before-target books for a held position is no more than any other order of its touched levels would. |
| ReplayLaws.ARunReportsTheRawExpectancy | src/qte_backtest/replay.py:324-344 | And what the report of a run says of the expectancy before costs is that mean, over the trades of the run. |
| ReplayLaws.NothingLaterMatters | src/qte_backtest/replay.py:286-311 | The state after a bar is the same on any two histories that agree up to that bar. |
| ReplayLaws.WindowIsABoundedQueue | src/qte_backtest/replay.py:298-299 | The window shown is what a queue bounded at the history window would hold, and its length. |
| ReplayPrices.EveryLegIsSoldAtTheMarket | src/qte_backtest/replay.py:286-322 | In every run, for any strategy and any factory: every leg a position is sold in carries the time of a bar and was sold, before costs, inside that bar's range, at its close, or at the price of a published signal. |
| ReplayReports.ARunIsItsTrades | src/qte_backtest/replay.py:313-344 | Every position a run reports is such a trade. |
| ReplayReports.ARunAddsUp | src/qte_backtest/replay.py:324-344 | And the totals of a run's report are those of its trades, from what they were entered at and what was quoted for their exits. |
| Indicators.SeededEwmIsTheRecursion | src/qte_shared/indicators.py:57-76 | With values missing anywhere, the smoothing is the recursion seeded with the mean of the first length values, each in its place. |
| Indicators.SmoothingStaysWithinInputs | src/qte_shared/indicators.py:57-76 | For every length from one up it never leaves the range of its inputs. |
| Indicators.AveragesStayWithinInputs | src/qte_shared/indicators.py:38-54 | Nor do the two averages built on it. |
| Indicators.SmoothingStepsTowardsEachValue | src/qte_shared/indicators.py:57-76 | Seeded smoothing shows nothing before enough values are there, then their mean, then moves by its weight of the difference to each value, from one value that is there to the next. |
| Indicators.TheAveragesStep | src/qte_shared/indicators.py:38-54 | Wilder's average keeps n - 1 parts of n; the exponential one n - 1 of n + 1, and takes the value twice. |
| Indicators.RsiIsTheShareOfGains | src/qte_shared/indicators.py:129-136 | RSI is the share of the smoothed steps up in all the smoothed steps, and 100 when there are none down. |
| Indicators.OnlyRisingReadsHundredOnlyFallingZero | src/qte_shared/indicators.py:129-136 | A series that never falls reads 100, one that falls at every step 0. |
| Indicators.RsiIsAPercentage | src/qte_shared/indicators.py:129-136 | RSI is between 0 and 100 whenever it is defined, flat and loss-free windows included. |
| Indicators.RsiIsDefinedAfterWarmup | src/qte_shared/indicators.py:129-136 | On a series without holes it is defined exactly from the warm-up bar on. |

## Left out

- Network clients, sockets, subscribers and task scheduling: only the fate of each await is modelled.
- Symbol and timeframe spelling (upper-casing, aliases) and origin stamping: every value is taken as already normalised and in scope.
- Rounding of reported figures, and floating-point error everywhere: prices, sizes and averages are exact reals. An infinite intermediate value of the RSI division cannot arise, because the smoothed losses are not negative.
- Moments before the epoch: `floor_to_bucket` truncates toward zero there.
- ResamplerModel.Resampler.Flush: visits timeframes in configured order; the source visits the open builders in the order they were opened, which orders one batch across timeframes differently and no single timeframe.
- Repeated timeframes in a resampler's configuration: the theorems about several timeframes require distinct ones, since a repeated label would fold one tick twice.
- IngestionServiceModel.IngestionService.HandleTick: the JSON of the stored tick, and the stamp of its origin.
- IngestionServiceModel.IngestionService.CheckVendorBar: the clock is read once, no other write lands between the awaits of one gap check, and a read that fails inside the request counts as a request that failed.
- IngestionServiceModel.IngestionService.SaveOpenCandles: saves the bars in configured order, the source in the order they were opened; after a failure in the middle a different one is left unsaved.
- IngestionServiceModel.IngestionService.MoveResamplers: the service holds each resampler as the value of its lanes, not as an object; an absent repairer is one that never answers.
- Cancellation in the middle of a repair, after which the bar is repaired again.
- The trimming of the store by time (expiry), and operator commands that flush or re-warm a window.
- Other events of a run in the middle of an emission or of one merge's read and swap: within a run each is one step. The races of a merge with other writers are in MergeRaces, those of several drainers in ConcurrentDrain.
- A cached source rewriting a window before the feeds start: it is proved of BackfillSeries and is no event of a run. Merges of any bars behind the live path are.
- Bars retained or waiting in memory when the process ends: a run starts with none.
- Backfill.HistoryBackfiller.MergeHistoryCandles: nobody else writes during it; with other writers it is MergeRaces.WindowMerger.MergeHistoryCandles.
- Backfill.HistoryBackfiller.BackfillSeries: the files a cached source keeps its answers in.
- Backfill.HistoryBackfiller.PlanBackfill: which days are asked for; how many a full window needs is in HistorySpan.
- CrossTimeframe.CoarseBarsAggregateFineBars: a run that resumes a saved bar is excluded, since what it was built from before the restart is not in the run.
- HistorySpan.SpanHoldsEnoughSessions: counts the whole days before today; the day under way is not counted on.
- SimulatorControl.PlayBars: a paced replay, between whose bars other commands can run; and a past anchor reaching back before the epoch.
- SimulatorSessions: runs anchored next and unstamped ticks only; a past anchor, an explicit start or a stamp can take a series back in time, and its ticks are then late. `walk` and `reset` are left out, and generated bars, which are random.
- Flushes in the middle of one `bars` command: the session theorem has them between commands.
- BacktestReplay.BacktestEngine.ProcessHeld: positions are values at an index rather than objects; FillSimulator is proved on objects separately, and both are tied to the same functions.
- BacktestReplay.BacktestEngine.Run: start and stop hooks of the strategy, the risk percentage, the symbol, indicators and inputs of a signal, and what the report carries for drawing.
- Metrics: average and largest win and loss, Sharpe, excursion and shape statistics, and the period of the report; they would add only easy members.
- Metrics.ComputeMetrics: requires the contract size of every trade that has an R to be other than zero, as the source divides by it.
- Indicators: every other indicator, and the library fallback.
- ReplayStories.EveryPositionLivesItsBars: held means held by the engine, so the bars after a position was displaced are not among its bars; when that happens is in ReplayLaws.HoldsExactlyOpenIff.
- The Telegram bot, reports, dashboards, CLIs, settings, provider plans, migrations and audits: text and plumbing.
