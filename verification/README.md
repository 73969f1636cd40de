# Verification of the trading core

A Dafny 4.11 model of the parts of the repository that carry its hardest promises, and proofs of those
promises. Four parts are covered.

**The backtest engine** (`agent-core/backtesting`). An event loop reveals one bar at a time, works through
the pending orders, keeps average-cost books and asks a strategy for new orders. Orders, fills, positions and
the feed are values; the loop itself is the class `Engine.RunState`, whose methods are proved equal to the
functions `ProcessOrders`, `Enqueued`, `OnEvent` and `RunTo`. About those functions, hence about every run over
every market, strategy, seed and configuration, the project proves: nothing after an event influences the state
reached by then; the books balance; every order id is conserved and obeys its timing; the participation cap, the
long-only rule and the configurations under which every run stays solvent; at which closes positions are marked and
on what every order was decided; and the drawdown and walk-forward statements.

**The execution motor** (`agent-core/zone-b/execution-motor`). `MotorSystem` is a transition system: worker
threads inside `execute`, the mirrored kill level, the sweeper, venues, crashes with partly written claim files,
and restarts. One step is one access to shared state and steps interleave freely. `MotorSafety` and `KillSweep`
hold what every run keeps; `SignalRace` says which claimed signals get through when calls race; `WakeUp` is the
hand-over of a cancel request to the sweeper thread, down to the single accesses, and `KillChain` runs it beside the
motor, from a kill report to the cancelled orders. `Limits`, `KillWatch` and `Motor` are the objects themselves:
`Motor.ExecutionMotor` runs one call of `execute` at a time on the real ledger, claim store and kill switch and
records, as history, the steps of `MotorSystem` it takes; its invariant says those steps are a run, so the theorems
about runs hold of it.

**The per-symbol normaliser** (`agent-core/zone-b/sensory-array`). A class with a history of accepted inputs; its
rolling state is shown to be a plain function of that history, and the median and MAD to be robust.

**Two protocols at the edges**: the canonical attestation text as an injective encoding, with the choice of the
signed side, and the reference-data bridge: what it pushes to Aegis, and what becomes of every regime label and
every snapshot when recording, pushing, failing and late arrival interleave.

Reading order: `Prelude`, `Portfolio`, `Execution`, `MarketData`, `Feed`, `Engine`, then `Marking`, `Decisions`,
`Orders`, `Runs`, `Solvency`, `Overdraft` and `NoLookahead`; `Metrics` and `Wfa`; `Limits`, `MotorSystem`,
`MotorSafety`, `SignalRace`, `KillSweep`, `Motor`, `WakeUp`, `KillChain`, `KillWatch`; `Scores`, `Normalizer`;
`Canonical`, `SignedText`; `RefdataBatch`, `RefdataPush`, `SnapshotPush`.

Inputs the code takes from outside are parameters: the strategy, the latency draws and the square root are
functions; the clock, quotes, routing, broker answers, file writes and thread schedules are arbitrary. Numbers the
code keeps as `Decimal` or binary floats are exact reals here.

## Findings

Where a promise does not hold as it is worded, the code was kept. For each there is an input that shows it, and a
theorem that says, for all inputs, exactly when the promise holds.

* A sale can overdraw the account although the cash check is on, because the check guards buys only
  (`agent-core/backtesting/execution.py:218-225`). With shorting off, cash stays non-negative in every run on every
  market if and only if no buy is ever affordable or no sale can cost more than it brings
  (`Overdraft.EveryRunIsSolventIff`), which depends on the initial cash and the commission alone:
  `Solvency.FeesNeverOverdraw`. `Overdraft.SmallSaleOverdraws` is a market, a strategy and three events.
* The slippage cost of a fill is documented as non-negative for adverse fills
  (`agent-core/backtesting/models.py:191-193`), but a sale over a reference price of at most half a micro is lifted
  to one micro and comes out as a gain (`Execution.TinySaleGains`). `Execution.AdverseSlippage` is the equivalence.
* "Submitted at most once" cannot be read as "once": two racing calls for one new signal can each lose one of the
  two claims, so both are refused as duplicates and the signal is used up for good (`SignalRace.RacersCanBothLose`,
  a run from an empty start). A signal gets through if and only if one call wins both keys
  (`SignalRace.ThroughIffBothWon`), and a call between its claims does if and only if no other call of the signal
  tries for the order key meanwhile (`SignalRace.UndisturbedCallGetsThrough`).
* A complete kill sweep can leave an order open, that of a call which had read a NORMAL level before the level rose
  and reached its venue after the listing (`KillSweep.LateOrderCanSurvive`, a run from an empty start). One sweep is
  sure to clear everything if and only if there is no such call when it starts (`KillSweep.OneSweepIsEnoughIff`).
* The snapshot half of the bridge marks what is latest when the answer arrives, not what was sent, so a newer
  snapshot recorded meanwhile is never sent (`SnapshotPush.NewerSnapshotIsLost`, `SnapshotPush.MissedIsNeverSent`).
  `SnapshotPush.SentUnlessMissed` is the equivalence over all runs; it shows a second way to be missed, arriving with
  the very stamp of a snapshot already marked. The regime half is right (`RefdataBatch.NewerRegimeStaysDue`).
* One lost answer leaves the regime watermark behind what Aegis accepted
  (`RefdataPush.LostAnswerLeavesWatermarkBehind`); `RefdataPush.WatermarkTracksAegis` says it is behind exactly for
  the symbols with an acceptance the bridge was not told of.

The promise that a flat window never hides a move (`agent-core/zone-b/sensory-array/src/normalizer.rs:7-9`) holds: a
move beyond the epsilon scores non-zero with its sign in every window (`Scores.NoMoveIsHidden`). How small such a
score may be is another matter when the MAD is zero and its fallback is in use: `Scores.FallbackMasksIff` gives the
exact condition for a score below any threshold, in terms of how many samples disagree and how far off they lie.

## Model

| member | source | states |
|---|---|---|
| Portfolios.SumPositions | agent-core/backtesting/portfolio.py:170-190 | the accumulator loop gives the sum over the positions, whatever order they are visited in |
| Portfolios.CheckInvariants | agent-core/backtesting/portfolio.py:192-205 | returns normally exactly when cash is initial cash less signed notional less fees and the equity identity holds within the tolerance |
| Portfolios.IncreaseOk | agent-core/backtesting/portfolio.py:130-143 | adding to a position keeps the round-trip invariant (entered minus exited plus realised is quantity at average cost) and adds the fill's signed value to the signed cost |
| Portfolios.PartialReduceOk | agent-core/backtesting/portfolio.py:145-168 | a partial reduction keeps the round-trip invariant |
| Portfolios.ReduceTrade | agent-core/backtesting/portfolio.py:70-82 | a closed trade's gross profit is direction times exit notional minus entry notional of the whole round trip, and equals everything realised on the position |
| Portfolios.CloseShape | agent-core/backtesting/portfolio.py:145-168 | a close or flip splits the fee between the closed trade and the position the rest of the fill opens the other way round |
| Portfolios.EffectDates | agent-core/backtesting/portfolio.py:104-168 | a trade closes exactly when a fill against the position is at least as large; it runs from the opening of the position to the fill, in its direction, over everything entered; what stays open keeps its opening stamp and regime |
| Portfolios.EffectBalances | agent-core/backtesting/portfolio.py:104-128 | one fill changes quantity, signed cost, fees and realised profit of its symbol by exactly the fill's own quantity, value, fee and realisation |
| Portfolios.PostBalanced | agent-core/backtesting/portfolio.py:104-128 | every fill keeps the books balanced: realised profit is gross of closed trades plus realised gross of open positions, and fees paid are fees of closed trades plus fees of open positions |
| Portfolios.FillsConserve | agent-core/backtesting/portfolio.py:104-168 | after any sequence of fills the books balance, each holding is the net traded quantity, a symbol is listed exactly when that is not zero, and fees and signed notional are sums over the fills |
| Portfolios.EquityIdentity | agent-core/backtesting/portfolio.py:170-205 | after any sequence of fills and at any marks equity is initial cash plus realised plus unrealised less fees, and cash is initial cash less signed value less fees |
| Portfolios.FlatBook | agent-core/backtesting/portfolio.py:104-190 | a book with no net holdings has cash equal to initial cash plus gross less fees of its closed trades |
| Portfolios.TradedIsTotal | agent-core/backtesting/portfolio.py:104-128 | the traded notional is quantity times price over all fills |
| Execution.AttemptConserves | agent-core/backtesting/execution.py:189-231 | filled plus still open plus refused is what the order still wanted; an order is never both open and refused, and what stays open is the same order |
| Execution.FillObeysRules | agent-core/backtesting/execution.py:161-231 | a fill is within capacity, order and inventory; a buy is at or below its limit and a sale at or above it; the reference is inside the collar; the price is the executable one and the commission the configured one; a checked buy leaves cash non-negative |
| Execution.AttemptFillsIff | agent-core/backtesting/execution.py:161-231 | an attempt fills exactly when the side may trade, the reference is inside the collar, something can be traded, the price keeps the limit and a checked buy can be paid; it waits whole exactly when nothing can be traded or the price is on the wrong side of the limit |
| Execution.RefusalReason | agent-core/backtesting/execution.py:166-225 | the reason of a refusal is the first rule that fails |
| Execution.ExecutablePriceIs | agent-core/backtesting/execution.py:205-216 | the price is quoted from the open or the close of the bar at the slippage of the traded quantity |
| Execution.QuotedPriceIs | agent-core/backtesting/execution.py:205-216 | a quoted price is the reference moved against the trader, at least one micro, at six places |
| Execution.SlippageIs | agent-core/backtesting/execution.py:144-152 | the fraction is half the spread in hundredths of a percent plus the impact of the share of the bar, by impact model |
| Execution.SixPlaces | agent-core/backtesting/execution.py:127-129 | a price is a whole number of micros, the nearest one, the even one of two equally near |
| Execution.FeeIsMaximum | agent-core/backtesting/execution.py:155-158 | the fee is the larger of the minimum and the cost by shares and notional |
| Execution.FeeWithinNotional | agent-core/backtesting/execution.py:155-158 | with no minimum, and a share at one micro worth its own commission, no fee exceeds its notional |
| Execution.RoundMonotone | agent-core/backtesting/execution.py:127-129 | rounding to six places keeps the order of prices and moves none by more than half a unit of the last place |
| Execution.SlippageNonNegative | agent-core/backtesting/execution.py:144-152 | the slippage fraction is never negative |
| Execution.AdverseSlippage | agent-core/backtesting/models.py:190-193 | slippage is a non-negative cost exactly when the order is a buy or the reference price is above half a micro |
| Execution.TinySaleGains | agent-core/backtesting/models.py:190-193 | a sale at a tenth of a micro has a negative slippage cost |
| MarketData.CreateSeries | agent-core/backtesting/data.py:101-122 | a series is accepted exactly when its bars are valid and strictly increasing in time |
| MarketData.SliceIsExact | agent-core/backtesting/data.py:124-139 | a time slice holds exactly the bars of the closed interval, in order |
| MarketData.CreateMarket | agent-core/backtesting/data.py:145-156 | refuses duplicates and an empty set; otherwise the timeline lists every stamp of every series once, in order |
| MarketData.StableArgsort | agent-core/backtesting/data.py:183-204 | the label order is a stable sort of the label stamps |
| MarketData.AsOf | agent-core/backtesting/data.py:183-204 | a bar gets the latest label stamped at or before it, the unknown regime exactly when there is none |
| MarketData.WithRegimes | agent-core/backtesting/data.py:183-204 | refuses label arrays that are empty, differ in length or hold a number that is no regime; otherwise every bar is joined as of its own time and otherwise unchanged |
| MarketData.JoinIgnoresLaterLabels | agent-core/backtesting/data.py:183-204 | labels stamped after a bar never change it |
| MarketData.AgreeTimeline | agent-core/backtesting/data.py:145-156 | markets that agree up to a time have the same timeline up to it |
| Feed.AccessorsRevealThePast | agent-core/backtesting/feed.py:27-104 | two histories answer every accessor alike if and only if their bars stamped at or before now are the same |
| Feed.AccessorsStayInThePast | agent-core/backtesting/feed.py:41-104 | no index, negative index, slice, tail or stamp accessor returns anything stamped after now |
| Feed.AtFindsExactly | agent-core/backtesting/feed.py:62-73 | a lookup by time finds a past bar exactly when there is one, and is refused exactly for the future |
| Feed.GetItemIs | agent-core/backtesting/feed.py:41-50 | an index from the front or the back gives its visible bar, and is refused beyond them |
| Feed.SliceIs | agent-core/backtesting/feed.py:51-59 | a slice gives every stride-th visible bar from its first bound up to, or down to, its second, and is refused for a stop beyond now or a stride of zero |
| Feed.TimestampsAre | agent-core/backtesting/feed.py:101-104 | the last stamps of the visible bars, all without a count and none for a negative one |
| Feed.LatestIsNewest | agent-core/backtesting/feed.py:60-62 | the latest bar is the newest one stamped at or before now, and there is none exactly when no bar is |
| Feed.TailIsNewest | agent-core/backtesting/feed.py:75-99 | the last n columns are of the n newest visible bars, oldest first |
| Feed.ClosesAre | agent-core/backtesting/feed.py:75-84 | the closes are those of the bars, in order |
| Feed.CursorStep | agent-core/backtesting/feed.py:157-171 | between two stamps of the timeline no bar is stamped, so one step per event keeps a cursor exact |
| Feed.Advance | agent-core/backtesting/feed.py:157-171 | after the inner loop every cursor counts the bars stamped at or before now and the new bars are those stamped now |
| Feed.Events | agent-core/backtesting/feed.py:157-171 | one event per stamp of the timeline, with exact cursors, views and new bars |
| Feed.DeliveredOnce | agent-core/backtesting/feed.py:157-171 | every bar is delivered, at its own time and at no other |
| Feed.AgreeEvents | agent-core/backtesting/feed.py:107-171 | markets that agree up to a time yield the same new bars and equally informative views at it |
| Engine.RunState.ProcessPending | agent-core/backtesting/engine.py:137-171 | the loop over the pending orders, with its capacity map, has exactly the effect of the pass as a function |
| Engine.RunState.Enqueue | agent-core/backtesting/engine.py:174-206 | the loop over the intents has exactly the effect of enqueuing as a function, up to the first unknown symbol |
| Engine.RunState.HandleEvent | agent-core/backtesting/engine.py:214-236 | one pass of the event loop takes the old state to the state of the function, or stops with its error |
| Engine.RunEvents | agent-core/backtesting/engine.py:214-236 | the loop over the feed computes the run up to the first error |
| Engine.RunBacktest | agent-core/backtesting/engine.py:209-236 | a backtest computes the run over all events of an exact feed |
| Engine.ErrorEndsRun | agent-core/backtesting/engine.py:209-236 | an error is final: no later event changes the outcome |
| Marking.EveryRunIsMarked | agent-core/backtesting/engine.py:209-236 | in every run over the feed of a market each symbol that has had a bar, and no other, is marked at the close of its newest one; past the warm-up each event adds one equity point and one snapshot, stamped at it, that say cash plus the positions at those closes |
| Decisions.DueOrderFillsIff | agent-core/backtesting/engine.py:137-171 | an order whose time has come fills at an event exactly when inventory, collar, what is left of the bar, limit and cash allow it, at that quantity and price |
| Decisions.OtherOrdersWait | agent-core/backtesting/engine.py:137-171 | an order past its expiry is refused, and one without a bar, not after its decision or not yet eligible waits as it is |
| Decisions.CapacityIsWhole | agent-core/backtesting/engine.py:137-171 | a bar offers the largest whole number of shares within its capped volume |
| Decisions.IntentBecomes | agent-core/backtesting/engine.py:174-206 | an intent is withheld for too low an omega, refused while its symbol has no bar, or queued whole under the next id |
| Decisions.EveryOrderIsDecided | agent-core/backtesting/engine.py:174-206 | in every run every order was decided on the close and regime of the newest bar of its symbol, is eligible after exactly the latency and its own draw, and expires after its own or the default lifetime |
| Orders.PassConserves | agent-core/backtesting/engine.py:137-171 | a pass over the queue only moves each order id's quantity between filled, open and refused |
| Orders.EveryRunKeepsItsOrders | agent-core/backtesting/engine.py:137-206 | in every reachable state each order id has filled plus pending plus refused equal to intended; ids are unique, refusals final; every fill is after creation, at or after eligibility, not after expiry and within its limit |
| NoLookahead.NothingAfterMatters | agent-core/backtesting/engine.py:137-236 | markets with the same bars up to a time give, with the same strategy, seed and configuration, the same portfolio, fills, trades, refusals, abstentions, queue, equity points and errors after every event up to it |
| Runs.EveryRunBalances | agent-core/backtesting/engine.py:214-236 | no run ever stops on the accounting check, and its books are the replay of its fills |
| Runs.EveryRunRespectsTheCap | agent-core/backtesting/engine.py:137-171 | over all orders the fills of a symbol at an event total at most the integer part of volume times the cap, and none without a bar |
| Runs.EveryRunIsLongOnly | agent-core/backtesting/execution.py:166-180 | with shorting disabled no reachable portfolio holds a non-positive position, every checked buy was paid from cash at hand and every fee is the configured commission |
| Overdraft.EveryRunIsSolventIff | agent-core/backtesting/execution.py:209-231 | with shorting off and the cash check on, cash is non-negative in every run of every strategy on every market if and only if the initial cash is at most the minimum commission, or there is no minimum and a share at one micro pays its own commission |
| Solvency.EveryRunIsSolvent | agent-core/backtesting/execution.py:155-231 | in every run, sales that cover their fees keep cash non-negative, and the condition on the configuration sees to that |
| Solvency.DrainExists | agent-core/backtesting/execution.py:144-158 | under every impact model and cap there is an amount, and a bar that offers it, whose price, slippage and commission take all the cash |
| Overdraft.OverdrawingRun | agent-core/backtesting/engine.py:209-236 | a buy of that amount and a small enough sale, on three flat bars of a valid market, end with negative cash |
| Overdraft.SmallSaleOverdraws | agent-core/backtesting/engine.py:209-236 | a concrete configuration, market and strategy whose third event leaves negative cash |
| Runs.OnlyUnknownSymbolsFail | agent-core/backtesting/engine.py:174-206 | enqueuing fails exactly when some intent names a symbol the market does not have |
| Metrics.PeakIsMaximum | agent-core/backtesting/metrics.py:81-102 | the running peak is the largest point so far and is attained |
| Metrics.LargestDrop | agent-core/backtesting/metrics.py:81-102 | the running-peak drawdown is the largest relative drop between any two points in order |
| Metrics.Edges | agent-core/backtesting/metrics.py:81-102 | the padded differences are exactly the places where the underwater flag changes, and come in pairs |
| Metrics.PairIsRun | agent-core/backtesting/metrics.py:81-102 | each pair of edges bounds a maximal underwater run |
| Metrics.RunIsPair | agent-core/backtesting/metrics.py:81-102 | each maximal underwater run is a pair of edges |
| Metrics.DurationIs | agent-core/backtesting/metrics.py:81-102 | a run lasts from the point before it to the first point above water after it, or to the last point |
| Metrics.MaxDrawdown | agent-core/backtesting/metrics.py:81-102 | the fraction is the largest drop and the duration that of the longest (earliest among equals) maximal underwater run from its peak to its recovery or the last point |
| Wfa.GenerateSplits | agent-core/backtesting/wfa.py:89-119 | succeeds exactly when the geometry is valid and the first window fits, and then returns every window that fits and no other |
| Wfa.AssertNoLeakage | agent-core/backtesting/wfa.py:122-134 | passes exactly when no window leaks |
| Wfa.SplitsNeverLeak | agent-core/backtesting/wfa.py:89-134 | generated windows always pass the leakage check with a gap of exactly purge plus embargo and disjoint ordered test ranges |
| Wfa.FitWindow | agent-core/backtesting/wfa.py:231-248 | picks the first parameter set that no other beats on the training slice |
| Wfa.TrainSliceIs | agent-core/backtesting/data.py:124-139 | the training slice holds, for each symbol that has any, exactly the bars from the first stamp to the last, in order |
| Wfa.FitSeesTheTrainingSliceOnly | agent-core/backtesting/wfa.py:231-248 | markets that agree up to the last training stamp lead to the same choice |
| Limits.HighestUsable | agent-core/zone-b/execution-motor/execution_motor/limits.py:116-140 | the best price is a positive one that no positive one exceeds, and there is none exactly when none is positive |
| Limits.ComputeNotional | agent-core/zone-b/execution-motor/execution_motor/limits.py:122-140 | the notional is quantity times a positive price and no positive price makes it more; none exactly when no price is positive |
| Limits.NotionalLedger.TryReserve | agent-core/zone-b/execution-motor/execution_motor/limits.py:143-165 | reserves a positive amount exactly when it fits under the cap, and changes nothing otherwise |
| Limits.NotionalLedger.Release | agent-core/zone-b/execution-motor/execution_motor/limits.py:167-169 | takes the amount off, clipped at zero |
| Limits.FileIdempotencyStore.Claim | agent-core/zone-b/execution-motor/execution_motor/limits.py:79-90 | True only for the first claim of a key that reached the disk; the key is remembered in memory even when it did not |
| Limits.GrantedClaimsAreKept | agent-core/zone-b/execution-motor/execution_motor/limits.py:45-113 | a granted key survives later writes, failed or not, and crashes: a later process reads it or refuses to start |
| Limits.OpenStoreIs | agent-core/zone-b/execution-motor/execution_motor/limits.py:65-113 | a process starts exactly on a usable directory with a readable claim file, or with nothing in it, and then with exactly the keys in the file |
| Limits.WriteIs | agent-core/zone-b/execution-motor/execution_motor/limits.py:79-90 | a synced claim on a file without residue leaves it readable with everything in it and the key; a failed one moves nothing that was synced |
| Limits.NoKeyFromNowhere | agent-core/zone-b/execution-motor/execution_motor/limits.py:45-113 | no key gets into the file that was not claimed, and a crash adds none |
| Limits.KillSwitch.IsHalted | agent-core/zone-b/execution-motor/execution_motor/halt.py:72-91 | halted when the source is elevated or raises or the latch is set; latches the former only in latching mode |
| Limits.KillSwitch.Resume | agent-core/zone-b/execution-motor/execution_motor/halt.py:58-70 | clears the latch only for a named operator and a quiet source |
| MotorSafety.AtMostOneSubmission | agent-core/zone-b/execution-motor/execution_motor/motor.py:147-174 | over every interleaving, failed write, crash and restart the broker is called at most once for any signal |
| MotorSafety.GrantedIsForever | agent-core/zone-b/execution-motor/execution_motor/limits.py:45-113 | in every run each key ever granted is remembered and stays in the file that later processes must load or refuse |
| MotorSafety.SessionCapHolds | agent-core/zone-b/execution-motor/execution_motor/motor.py:226-295 | in every state of every run the notionals of this process's orders that may exist at a broker sum to at most what is reserved, which is at most the cap |
| MotorSafety.ClipNeverActs | agent-core/zone-b/execution-motor/execution_motor/limits.py:167-169 | whenever a run returns a reservation exactly that much was still reserved for the call, so nothing is released twice |
| SignalRace.ThroughIffBothWon | agent-core/zone-b/execution-motor/execution_motor/motor.py:226-237 | in every run each key is won by at most one call, some call of a signal gets past the claims if and only if one call won both its keys, and nothing else of it is submitted |
| SignalRace.UndisturbedCallGetsThrough | agent-core/zone-b/execution-motor/execution_motor/motor.py:226-237 | a call that has won its signal key gets through if and only if its order key was free and no other call of the signal tries for it in between, whatever else happens |
| SignalRace.RacersCanBothLose | agent-core/zone-b/execution-motor/execution_motor/motor.py:226-237 | a run from an empty start in which two calls for one signal are both refused, after which nothing is ever submitted for it |
| KillSweep.KillSweepWorks | agent-core/zone-b/execution-motor/execution_motor/kill_watch.py:93-148 | in every run, if the level stays above NORMAL through a sweep that is complete, only orders of calls that had passed the final level check at its start and arrived after their venue was listed are open |
| KillSweep.QuietSweepClearsEverything | agent-core/zone-b/execution-motor/execution_motor/kill_watch.py:93-148 | if moreover no such call was under way, nothing is open |
| KillSweep.WorkerSlipsNoMore | agent-core/zone-b/execution-motor/execution_motor/motor.py:239-246 | at an elevated level no worker gets past the final halt check any more |
| KillSweep.OnlyZeroOpens | agent-core/zone-b/execution-motor/execution_motor/motor.py:239-246 | only a reported level of 0 lets a call past the level check |
| KillSweep.SweepProgresses | agent-core/zone-b/execution-motor/execution_motor/kill_watch.py:93-148 | each listing takes its venue and each cancel its order off the list whatever the answer, and failures are kept in the result |
| KillSweep.VenueSteps | agent-core/zone-b/execution-motor/execution_motor/kill_watch.py:93-148 | a request that arrives is open, and late exactly when the sweep under way has already listed its venue |
| KillSweep.OneSweepIsEnoughIff | agent-core/zone-b/execution-motor/execution_motor/kill_watch.py:93-148 | in every reachable state with the level up, every complete sweep leaves nothing open if and only if no call has slipped past the level check |
| KillSweep.SlippedCanSurvive | agent-core/zone-b/execution-motor/execution_motor/motor.py:239-268 | any call that has slipped can leave an open order behind a complete sweep of any venues |
| KillSweep.LateOrderCanSurvive | agent-core/zone-b/execution-motor/execution_motor/kill_watch.py:93-148 | a run from an empty start that leaves an open order behind a complete sweep |
| Motor.ExecutionMotor.Precheck | agent-core/zone-b/execution-motor/execution_motor/motor.py:176-216 | refuses with the reason of the first gate that refuses, else with the order cap, else yields the worst case over the positive limit and stop and a quote that is fresh, not from the future and positive |
| Motor.QuoteDecides | agent-core/zone-b/execution-motor/execution_motor/motor.py:196-216 | an order without a positive price of its own is undeterminable exactly when there is no quote, its price is not positive, or it is from the future or too old; otherwise its notional is its worth at the quote |
| Motor.StaleQuoteDoesNotCount | agent-core/zone-b/execution-motor/execution_motor/motor.py:203-216 | a quote that is too old or from the future leaves the notional what it is without one |
| Motor.ExecutionMotor.ClaimAndReserve | agent-core/zone-b/execution-motor/execution_motor/motor.py:226-237 | both keys are claimed whatever the first says; reserves exactly when both are new and the notional fits |
| Motor.ExecutionMotor.LastCheck | agent-core/zone-b/execution-motor/execution_motor/motor.py:239-246 | a halt found immediately before the broker call returns the reservation |
| Motor.ExecutionMotor.FromBroker | agent-core/zone-b/execution-motor/execution_motor/motor.py:257-349 | a definitive reject returns the reservation, an unknown outcome keeps it and halts, anything else keeps it and is reported |
| Motor.ExecutionMotor.Execute | agent-core/zone-b/execution-motor/execution_motor/motor.py:116-174 | the broker is called, once, exactly when every guard lets the order through; the notional stays reserved unless the broker refuses for certain; every access is a step of a run |
| Motor.MotorIsSafe | agent-core/zone-b/execution-motor/execution_motor/motor.py:116-174 | however the motor is used it submits no signal twice and its exposure stays within the reserved amount and the cap |
| WakeUp.NoRequestIsLost | agent-core/zone-b/execution-motor/execution_motor/kill_watch.py:194-230 | every request ever made is stored with the event set, about to be set, or the sweeper between clearing and taking; or is served by a sweep that began after it |
| WakeUp.SweeperIsNeverStuck | agent-core/zone-b/execution-motor/execution_motor/kill_watch.py:308-320 | the sweeper can always step until it has stopped, and needs no timer once a request is stored and its event set |
| WakeUp.ServedInNineSteps | agent-core/zone-b/execution-motor/execution_motor/kill_watch.py:308-338 | after at most nine further steps of the sweeper, whatever the requesters do, a request is served by a later sweep unless the watcher is stopped |
| KillChain.ReportReachesTheVenues | agent-core/zone-b/execution-motor/execution_motor/kill_watch.py:198-320 | nine loop steps after a sweep was asked for with the level up, a sweep begun since has ended, and if complete it leaves open only late orders of calls that had slipped when it was asked for |
| KillChain.ReportIsSwept | agent-core/zone-b/execution-motor/execution_motor/kill_watch.py:198-320 | a report of any level but 0 and 1, handled while the level stays up, leads within nine loop steps of its request to the end of a sweep that leaves open, if complete, only late orders of calls that had slipped when the report was mirrored |
| KillChain.ResweepsFromTwo | agent-core/zone-b/execution-motor/execution_motor/kill_watch.py:250-254 | with nothing asked for the loop sweeps exactly at level 2 or above |
| KillChain.SecondSweepClearsEverything | agent-core/zone-b/execution-motor/execution_motor/kill_watch.py:198-320 | if no call had slipped when it was asked for, that sweep leaves nothing open |
| KillChain.UpMeansUnlapsed | agent-core/zone-b/execution-motor/execution_motor/kill_watch.py:198-219 | a request keeps its guarantee as long as the level stays up |
| KillWatch.KillLevelMirror.Apply | agent-core/zone-b/execution-motor/execution_motor/kill_watch.py:64-72 | records the reported level, HARD when it is out of range, and returns the previous one |
| KillWatch.MirrorTellsTheLastWord | agent-core/zone-b/execution-motor/execution_motor/kill_watch.py:194-219 | the mirror says what the newest report of its stream said, HARD when a stream failed since or none governs |
| KillWatch.FilterKeepsTheNewest | agent-core/zone-b/execution-motor/execution_motor/kill_watch.py:194-202 | the out-of-order filter keeps exactly the reports that nothing on their stream outdates |
| KillWatch.KillSwitchWatcher.HandleState | agent-core/zone-b/execution-motor/execution_motor/kill_watch.py:198-210 | mirrors an in-order report and asks for a sweep exactly when its level is neither 0 nor 1, out-of-range ones included; an out-of-order one changes nothing; the accesses are those of one handling in the running system |
| KillWatch.KillSwitchWatcher.Consume | agent-core/zone-b/execution-motor/execution_motor/kill_watch.py:232-248 | applies the reports in order and never returns with a trusted level; asks for a sweep unless the watcher was stopped |
| KillWatch.KillSwitchWatcher.CheckLiveness | agent-core/zone-b/execution-motor/execution_motor/kill_watch.py:322-338 | fails exactly when a known state has a probe that does not answer, and then reads HARD and asks for a sweep |
| KillWatch.Sweep | agent-core/zone-b/execution-motor/execution_motor/kill_watch.py:93-148 | one cancel per listed order of every readable venue, in order, whatever the others answered |
| KillWatch.CompleteMeansAllCancelled | agent-core/zone-b/execution-motor/execution_motor/kill_watch.py:81-90 | a result is complete exactly when every venue could be read and accepted every cancel |
| Scores.MedianAndMadAreRobust | agent-core/zone-b/sensory-array/src/normalizer.rs:334-397 | if strictly more than half of the window lies in an interval, so does the median, and the MAD is at most its width |
| Scores.OutliersDoNotMask | agent-core/zone-b/sensory-array/src/normalizer.rs:334-379 | while the MAD is usable a price above such an interval scores at least as if the spread were its width |
| Scores.NoMoveIsHidden | agent-core/zone-b/sensory-array/src/normalizer.rs:334-379 | in every window a price beyond the epsilon of the median (of the mean) has a non-zero MAD score (z-score) with the sign of the move |
| Scores.FallbackMasksIff | agent-core/zone-b/sensory-array/src/normalizer.rs:359-379 | with an unusable MAD a score is below a threshold exactly when the move is less than that many widths, or within the epsilon, the width being the share of disagreeing samples times their average distance |
| Scores.FallbackMeansAgreement | agent-core/zone-b/sensory-array/src/normalizer.rs:353-364 | the fallback is used only when at least half of the window agrees with the median |
| Scores.FallbackCanBeSwamped | agent-core/zone-b/sensory-array/src/normalizer.rs:359-364 | a window whose majority agrees and in which twice that price scores below one |
| Scores.ConstantWindowSaturates | agent-core/zone-b/sensory-array/src/normalizer.rs:334-379 | against a constant window both scores are zero within the epsilon and saturate beyond it |
| Scores.ScoresOf | agent-core/zone-b/sensory-array/src/normalizer.rs:334-379 | both scores stay within plus and minus a million, and are zero with fewer than two samples |
| Scores.MedianIs | agent-core/zone-b/sensory-array/src/normalizer.rs:388-397 | the median is half way between the middle samples of the sorted window |
| Scores.VarianceIs | agent-core/zone-b/sensory-array/src/normalizer.rs:381-386 | the mean and the sample variance, with n - 1, by the sums of the samples and of their squares |
| Scores.ZScoreIs | agent-core/zone-b/sensory-array/src/normalizer.rs:334-379 | the z-score is the deviation from the mean in standard deviations, capped, and zero or the cap where there is none to speak of |
| Scores.MadScoreIs | agent-core/zone-b/sensory-array/src/normalizer.rs:334-379 | the MAD score is in widths of 1.4826 MADs where that exceeds a billionth of the median, else of 1.253314137 mean absolute deviations |
| Normalizers.PushBar | agent-core/zone-b/sensory-array/src/normalizer.rs:319-330 | replaces the bar of the same second, appends a newer one within the cap, ignores an older one |
| Normalizers.BarsFollow | agent-core/zone-b/sensory-array/src/normalizer.rs:319-330 | what push_bar leaves is the end of the history's bars, and its out-of-order branch is unreachable from accepted quotes |
| Normalizers.BarsAreSecondCloses | agent-core/zone-b/sensory-array/src/normalizer.rs:177-217 | the bars are exactly the last mids of the distinct seconds, strictly increasing |
| Normalizers.DayTotalsAreExact | agent-core/zone-b/sensory-array/src/normalizer.rs:220-253 | one total per day, in order, each exactly the volume of the trades that no later day preceded |
| Normalizers.RollQuote | agent-core/zone-b/sensory-array/src/normalizer.rs:177-217 | the step after the guards scores the quote against the prior window and extends the batch function of the history |
| Normalizers.RollTrade | agent-core/zone-b/sensory-array/src/normalizer.rs:220-253 | likewise for the last trade and the daily volumes |
| Normalizers.Normalizer.UpdateQuote | agent-core/zone-b/sensory-array/src/normalizer.rs:177-217 | refuses for the reason of the first of six guards that fails and then changes nothing; otherwise extends the history that the state is a function of |
| Normalizers.QuoteAcceptedIff | agent-core/zone-b/sensory-array/src/normalizer.rs:298-315 | a quote is accepted if and only if its prices are positive, at most ten million and not crossed, its sizes and stamps in range, its symbol known or with room, and its stamp not below the last accepted one |
| Normalizers.TradeAcceptedIff | agent-core/zone-b/sensory-array/src/normalizer.rs:220-232 | likewise for a trade |
| Normalizers.KeptMidsAreBetween | agent-core/zone-b/sensory-array/src/normalizer.rs:177-217 | every accepted quote is uncrossed, and each mid kept is half way between the sides of its quote |
| Normalizers.Normalizer.UpdateTrade | agent-core/zone-b/sensory-array/src/normalizer.rs:220-253 | likewise for trades |
| Normalizers.StateMeansHistory | agent-core/zone-b/sensory-array/src/normalizer.rs:177-253 | the state holds the last mids, the last tick of each latest second, and the exact volumes of the latest completed days |
| Canonical.TextRoundTrip | agent-core/zone-b/execution-motor/execution_motor/canonical.py:47-77 | a decoder gives back all twelve fields of the text, for every side string whatsoever |
| Canonical.TextIsInjective | agent-core/zone-b/execution-motor/execution_motor/canonical.py:47-77 | two attestations that build the same text agree on all twelve fields |
| Canonical.TextIs | agent-core/zone-b/execution-motor/execution_motor/canonical.py:47-77 | the text is the thirteen lines of the format in their order |
| Canonical.NoLeadingZero | agent-core/zone-b/execution-motor/execution_motor/canonical.py:60-75 | a number is written without leading zeros |
| Canonical.SignIs | agent-core/zone-b/execution-motor/execution_motor/canonical.py:60-75 | a minus sign stands before negative numbers and no others |
| Canonical.BuildCanonicalText | agent-core/zone-b/execution-motor/execution_motor/canonical.py:40-77 | the text is built exactly when the five checked values are non-empty and free of controls and equals signs |
| Canonical.CleanIs | agent-core/zone-b/execution-motor/execution_motor/canonical.py:40-44 | a value is clean when it is not empty and has no code point below 32, from 127 to 159, or 61 |
| SignedText.SelectSignedText | agent-core/zone-b/execution-motor/execution_motor/proto_adapter.py:66-108 | returns the text of the first candidate side whose digest is the claimed one, else of the first candidate; refused exactly for an unsupported side or type or an unclean value |
| SignedText.DigestBindsEveryField | agent-core/zone-b/execution-motor/execution_motor/proto_adapter.py:93-108 | with a collision-free digest the selected text matches exactly when the order carries the very fields that were signed and its side may stand for the signed one |
| SignedText.ShortsNeedPermission | agent-core/zone-b/execution-motor/execution_motor/canonical.py:80-91 | with short selling disabled an attestation of a short sale never matches |
| RefdataBatch.BatchState.RecordSnapshot | agent-core/zone-b/refdata-bridge/refdata_bridge/batch.py:44-49 | keeps the newer snapshot per symbol, the arrival on equal stamps |
| RefdataBatch.BatchState.RecordRegime | agent-core/zone-b/refdata-bridge/refdata_bridge/batch.py:51-56 | keeps the newer label per symbol |
| RefdataBatch.BatchState.BuildBatch | agent-core/zone-b/refdata-bridge/refdata_bridge/batch.py:58-74 | the batch is the due items, oldest first, one per symbol, cut to the limit so that nothing left out is older than what is in |
| RefdataBatch.BatchState.MarkApplied | agent-core/zone-b/refdata-bridge/refdata_bridge/batch.py:76-87 | regime watermarks advance to what was sent, snapshot watermarks to what is latest |
| RefdataBatch.MarkedSnapshotIsNotDue | agent-core/zone-b/refdata-bridge/refdata_bridge/batch.py:76-84 | once its symbol is marked the latest snapshot is not due, whether it was sent or not |
| RefdataBatch.StampNeverFalls | agent-core/zone-b/refdata-bridge/refdata_bridge/batch.py:44-56 | what is stored for a symbol never gets older and is never lost |
| SnapshotPush.SentUnlessMissed | agent-core/zone-b/refdata-bridge/refdata_bridge/service.py:87-110 | in every run the latest snapshot of a symbol is due or was sent if and only if it did not come in during a push that was then applied for its symbol, nor with the stamp of one already marked |
| SnapshotPush.MissedIsNeverSent | agent-core/zone-b/refdata-bridge/refdata_bridge/service.py:87-110 | a missed snapshot is in no request, whatever is pushed, until another is recorded for its symbol |
| SnapshotPush.NewerSnapshotIsLost | agent-core/zone-b/refdata-bridge/refdata_bridge/batch.py:76-84 | a run from the empty state in which a newer snapshot arrives during a push and is then neither sent nor due |
| RefdataBatch.NewerRegimeStaysDue | agent-core/zone-b/refdata-bridge/refdata_bridge/batch.py:85-87 | after marking a regime label is due exactly when it is newer than the one sent |
| RefdataPush.WatermarkTracksAegis | agent-core/zone-b/refdata-bridge/refdata_bridge/service.py:87-110 | in every run, with lost answers and with requests received after they were given up, accepted stamps strictly increase, the watermark is the largest of them exactly when no answer is outstanding, and a label newer than all of them is due |
| RefdataPush.WithoutFailuresWatermarkIsExact | agent-core/zone-b/refdata-bridge/refdata_bridge/batch.py:51-87 | without failed pushes the watermark equals the largest accepted stamp between pushes, and a label is due exactly when Aegis has none as new |
| RefdataPush.LostAnswerLeavesWatermarkBehind | agent-core/zone-b/refdata-bridge/refdata_bridge/service.py:92-105 | a run with one lost answer in which an accepted label is due again |

## Left out

- Number formats: `Decimal` division at 28 digits and binary floating point are exact reals; square root,
  logarithm and the random draws are parameters. NaN and infinity therefore never appear.
- Realised volatility, ADV averaging, the snapshot builder of the normaliser and the metrics other than drawdown:
  they would add only direct computations.
- Engine reporting: the regime column of the equity curve and the final assembly of the result are not modelled;
  the equity points themselves are.
- Names of symbols, tickers, UUIDs, hex and environment parsing, gRPC, TLS, Redis, QuestDB, HTTP, logging and
  health endpoints.
- Cryptography: a verdict on the attestation and a digest function are inputs; `CollisionFree` is an assumption
  of the two lemmas that name it.
- UTF-8: the canonical text is a sequence of code points; its encoding to bytes is not part of this model.
- Checks of `_check_consistency` and the conversion from nanos to `Decimal`.
- Broker clients: a broker is the contract of its interface (a submit is answered, refused for certain or unknown;
  a listing holds every open order of the venue or raises; an accepted cancel closes its order). The page limit of
  the Alpaca listing is below that contract and not modelled.
- Claim file: the model lets a failed write leave any part of its line and a crash lose what was not synced, and
  takes from JSON only that no part of a line reads as another key. Wiping the state directory by hand is excluded:
  a process then starts empty, as the code says.
- The session cap is a cap of one process: a restart begins a new ledger, and orders of the earlier process are not
  in it. The code has no other notion of session.
- Exceptions outside the claim store: `MotorSystem` lets any call raise at any moment, `Motor.ExecutionMotor` only
  where a claim cannot be persisted.
- Motor.ExecutionMotor.Execute: one call at a time; the interleavings of several calls are those of `MotorSystem`.
- Two accesses are taken as one where nothing between them is shared: the kill level and the latch are read in two
  steps, but a halt after an unknown outcome is one step with the end of its call.
- KillWatch.KillSwitchWatcher.HandleState: the level is read back in the same step it was mirrored in; a failed
  probe between the two would only ask for one more sweep.
- Ties in a batch: items with equal stamps may come in any order, as the order of the dictionaries is not modelled.
- Aegis: only that it accepts an item when it is strictly newer than what it has and otherwise at will. Its own
  restart is not modelled.
- MarketData.WithRegimes: labels are numbers; the names and enumeration members `parse_regime` also accepts are not
  modelled.
- Overdraft.EveryRunIsSolventIff: takes from `bar_sigma` that a market that does not move has zero volatility
  (`Solvency.FlatIsQuiet`); the proxy itself takes logarithms and a root, and is a parameter.
- `KillChain` is about one process while it is up; the steps it counts are those of the sweeper's loop, not the
  broker calls inside a sweep.
- What Aegis keeps of the snapshots it is sent: `SnapshotPush` knows only which requests went out and what was answered.
- Walk-forward runs: training, scoring and aggregation beyond the choice of parameters.
