# Verification model of the trading bot's deterministic core

The bot asks language models for a decision per ticker (BUY, SELL or HOLD, a share of
the cash, a confidence) and then runs a deterministic machine over it. This project
models that machine in Dafny and proves what holds for every decision, every market
state, every pattern of broker answers and every length of run.

A decision is an arbitrary signal, size and confidence. The broker is an arbitrary
oracle: every order carries an accept or reject answer as input. Lots and lot sizes are
integers, money is exact (`real`), quantities are sized with `Floor`. Clocks, the shuffle
of tickers, volatility statistics, crashes and the backtested strategy are parameters.

## How the model is laid out

* **Risk Officer.** `Risk` is the branch structure of `evaluate` and its gates over a
  read-only context. `RiskProperties`, `RiskLimits`, `Openings`, `Exits` and `Trim` say when
  an operation is allowed, what it can be, and how large. `ExposureLoops` holds the
  accumulating loops against the sums the gates use. `PlainOpenings` says what an opening
  needs to pass every gate, `Ladder` is the profit ladder, `LadderRuns` its memory over any
  number of ticks.
* **One tick.** `Orders` turns a gate result into broker orders, `Simulation` moves
  simulated cash and positions under the broker's collateral model. `Fills` and
  `Accounting` are the independent reference: a trade is a change of signed lots, and one
  that crosses zero is a close followed by an open. `TickSteps` proves that the three
  parts describe the same fill; `TickNav`, `Charges`, `TickLimits`, `TickSafety`,
  `TickExposure` and `TickGuarantees` build on it. `TickStart` says at which prices and NAV a
  tick opens, `TickGates` what its openings had passed and what a reply settles.
  `TradingScheduler` is the object with the Phase 2 loop and the balance failsafe;
  `Failsafe` is the latch over its whole life.
* **Backtest.** `Engine` describes the bar loop as a function of the price history,
  `EngineBooks`, `EngineLedger` and `EngineRuns` prove book identities, causality and run
  invariants, `EngineBars` what a bar is decided on and may spend, `EngineSignals` which
  signals are acted on, `EngineExposure` how far the caps reach there,
  `Backtester` is the object that updates holdings in place and is proved to compute the
  same books. `Equivalence` and `Agreement` relate backtest and live simulation.
* **Supports.** `ShortCheck` is the crash-restart state machine of the short check,
  `UniverseSelect` the choice of tickers, `Metrics` drawdown and returns, `Sizing` the lot
  arithmetic, `Journal` the decision journal and its tail, `Portfolio` position lists.
  `Counterexamples` holds one concrete input for each promise that fails.

## Where the code falls short of its promises

For each promise that fails, the exact condition under which it holds is proved.

* A flip that reaches the sector gate with a NAV of exactly zero divides by zero
  (`RiskProperties.EvaluateRaisesExactly`); it is the only exit that can be lost
  (`RiskProperties.ExitsNeverBlocked`; input: `Counterexamples.CoverLostAtZeroNav`).
* There is no cash check on the short side. On accounts whose NAV is the value of their book,
  openings are always covered by cash exactly when `min(1, cap, sector cap) * (1 + rate) <= 1`
  (`RiskLimits.OpeningsPaidExactly`); the shipped settings meet it
  (`Counterexamples.ShippedSettings`).
* Orders are sized from cash but capped against NAV. On such accounts both caps hold after
  every opening exactly when cash does not exceed NAV (`RiskLimits.CapsHoldExactly`). Live,
  cash exceeds NAV only if some short trades above twice its entry (`TickSafety.CashWithinNav`).
  In the backtest it does whenever shorts outweigh longs
  (`EngineExposure.CashAboveNavExactly`), and earlier fills of a bar change the cash but not
  the NAV that later signals of the bar are capped against. Runs exist for every cash above
  every NAV (`EngineExposure.BacktestCapsHoldExactly`), one of them under the shipped settings
  (`Counterexamples.BacktestOverCap`).
* Without a price, a close is sent to the broker but the simulation does not follow
  (`TickNav.SimulatedLotsFollowBroker`, `Counterexamples.CloseWithoutPrice`). A BUY or SELL
  reaches Phase 2 with price 0 when the last candle closes at 0: an empty candle table is an
  error (`src/agent/data/moex.py`), but a candle's fields need only be numbers
  (`src/agent/schemas.py:9-16`) and a close of 0 becomes the price 0.0
  (`src/agent/runtime/scheduler.py:1166`).
* The closing half of a refused flip is charged on other shares than it trades
  (`Charges.FallbackChargedExactly`, `Counterexamples.RefusedFlipUndercharged`).
* Profit thresholds closer than the comparison tolerance are confused, and a rung repeats
  (`Ladder.RungsFireOnceExactly`, `Ladder.CloseThresholdsRepeat`); a threshold that does not
  survive rounding to six digits is forgotten (`Ladder.LockRememberedExactly`,
  `Counterexamples.LockForgotten`).
* The failsafe latch is lost by a restart once its record has left the journal's tail
  (`Failsafe.TailReplayExactly`, `Failsafe.LostLatchRestartsGrace`,
  `Counterexamples.LatchLostInTail`).
* The state file of the short check is overwritten in place, and an unreadable file counts as
  none. A crash inside the write after the SELL makes the next life sell again
  (`Counterexamples.SoldTwice`); after a sale the next life is safe exactly when the file is
  readable (`ShortCheck.NextLifeSafeExactly`), and any history is safe as long as no write is
  torn and no file unreadable once an order was sent (`ShortCheck.LivesAreSafe`).
* The short check is flat when done exactly when the configured quantity did not change
  (`ShortCheck.DoneIsFlatExactly`, `Counterexamples.DoneButShort`).
* When equity falls from positive to negative, the one-pass drawdown can miss the largest
  fall: it reports the fall from the highest peak, but into debt a fall from a lower value is
  the larger fraction. `Metrics.DrawdownBoundsFallsExactly` says on which curves it is still
  the largest, `Metrics.DrawdownDiffersOnDebt` gives the shortest curves on which it is not.
* Returns compound to the total return only if equity does not pass through zero
  (`Metrics.ReturnsCompound`).
* The backtest charges its tick budget differently from the live gateway
  (`Agreement.BudgetsDiffer`, `Counterexamples.BudgetsApart`). Without the Risk Officer a backtest signal larger than the
  opposing position reverses it even with flips off (`Agreement.SignalCrossesExactly`,
  `Counterexamples.ReversedUnguarded`).
* A comment at `src/agent/runtime/risk.py:793` says that cash grows when a short is opened;
  the simulation blocks collateral instead, and the model follows the simulation. A
  configured grace period of 0 minutes acts as 30, and a minimum balance of 0 as 0.01, and
  the model keeps both.

## Model

| member | source | states |
|---|---|---|
| Sizing.QuantityIsLargestThatFits | src/agent/runtime/sizing.py:7-24 | the sized quantity is the largest lot count whose value fits in the allotted cash |
| Operations.SuffixesAgree | src/agent/runtime/scheduler.py:1314-1323 | the enumeration of operations decides exactly what testing the end of the operation string decides |
| RiskProperties.EvaluateFitsPosition | src/agent/runtime/risk.py:436-587 | for every input, operation, signal, sign of the position and size agree: openings extend, reductions take 1 to all lots, flips close everything first and need the setting |
| RiskProperties.EvaluateRaisesExactly | src/agent/runtime/risk.py:725-731 | evaluation raises exactly for a flip that reaches the sector gate with zero NAV |
| RiskProperties.ExitsNeverBlocked | src/agent/runtime/risk.py:436-587 | a signal against the position gets a reducing leg of 1 to all lots, whatever the other gates say, exactly when evaluation does not raise |
| RiskProperties.OpeningHasPassed | src/agent/runtime/risk.py:590-848 | an allowed opening has passed every cap and budget, with its own metrics |
| RiskProperties.InstrumentCapHolds | src/agent/runtime/risk.py:687-707 | after an allowed opening the ticker weighs at most the instrument cap |
| RiskProperties.ScaledCapHolds | src/agent/runtime/risk.py:698-774 | whatever the cash, the ticker is worth at most the cap's share of the larger of cash and NAV after an opening |
| RiskLimits.OpeningsPaidExactly | src/agent/runtime/risk.py:709-801 | on accounts whose NAV is the value of their book, all openings are covered by cash if and only if min(1, cap, sector cap) * (1 + rate) is at most 1, with or without a tick budget |
| RiskLimits.CapsHoldExactly | src/agent/runtime/risk.py:698-774 | on accounts whose NAV is the value of their book, ticker and sector caps hold after every opening if and only if cash does not exceed NAV, with or without a tick budget |
| PlainOpenings.FittingLotsOpen | src/agent/runtime/risk.py:590-848 | a decision that adds to a position entered at the current price, in a calm market, opens exactly the lots that fit size, cash and budget |
| PlainOpenings.OwnSectorLoad | src/agent/runtime/risk.py:135-158 | alone in its sector, a ticker is the whole load of the sector |
| RiskLimits.LiveAccountIsReal | src/agent/runtime/scheduler.py:842-863 | the accounts on which the caps fail have the NAV of their book, at the first decision of a tick |
| Openings.MaxNavIsMaximum | src/agent/runtime/risk.py:96-114 | the peak of the NAV history is attained and bounds every record |
| Openings.DrawdownClearExactly | src/agent/runtime/risk.py:682-687 | the drawdown switch stays open exactly when no recorded NAV is too far above the current one while positions are open |
| Openings.SessionOpenIsFirst | src/agent/runtime/risk.py:85-93 | the session NAV is the first record of today, and absent only if today has none |
| Openings.DailyLossClearExactly | src/agent/runtime/risk.py:690-696 | the daily switch stays open exactly when the loss against the first NAV of today is below the limit |
| Openings.FirstRefusalExactly | src/agent/runtime/risk.py:621-696 | the market and account gates refuse exactly when price, conviction, spread, edge, drawdown or daily loss is out of bounds |
| Openings.ClipIsLargest | src/agent/runtime/risk.py:709-744 | clipping takes the largest size that request, ticker room and sector room all allow |
| Openings.OpensExactly | src/agent/runtime/risk.py:590-848 | an opening goes through if and only if market, caps, VaR, cash and tick budget are all clear |
| Openings.OpenedQtyIsLargest | src/agent/runtime/risk.py:772-774 | a plain opening is the largest lot count that fits in the clipped share of cash; the requested quantity never binds |
| Openings.FlipOpensRemainder | src/agent/runtime/risk.py:537-566 | closed plus opened lots of a flip are the requested lots, or less if the clipped share affords less |
| Exits.PnlIsUnrealizedShare | src/agent/runtime/risk.py:329-334 | the percentage that stops look at is the share of entry cost by which the NAV carries the position above its collateral |
| Exits.StopLossExactly | src/agent/runtime/risk.py:347-352 | a stop closes the whole position exactly when that loss has reached the stop share, for any signal, ladder or bracket |
| Exits.TakeProfitExactly | src/agent/runtime/risk.py:406-433 | without the ladder, a take-profit closes all lots exactly when the unrealized profit has reached its share of the entry cost and no trim fires |
| Exits.LadderIsEvaluated | src/agent/runtime/risk.py:338-404 | with the ladder on, and no trim, the exit proposed for the unrealized share is what evaluation returns, rung and average on record |
| Exits.LadderTakesHighestDue | src/agent/runtime/risk.py:353-387 | with rising thresholds the ladder closes the fraction of the highest rung that is due, and fires exactly when one is |
| Exits.PartialQtyIsSmallest | src/agent/runtime/risk.py:295-301 | a partial close takes the smallest lot count that makes up its fraction |
| Exits.PartialQtyOutside | src/agent/runtime/risk.py:295-301 | a fraction of at most 0 closes nothing, one of at least 1 everything |
| Exits.ClosesRequestedLots | src/agent/runtime/risk.py:505-531 | a signal that only closes sells or covers the requested lots, the largest count that fits its share of the cash, and never more than the position |
| Exits.ClosesAllWithoutMoney | src/agent/runtime/risk.py:505-531 | it closes the whole position when not even one lot fits |
| Exits.LargerRequestFlips | src/agent/runtime/risk.py:537-566 | a larger request, with flips on, is no plain close of its own but a flip or its closing half |
| Exits.TrimFiresExactly | src/agent/runtime/risk.py:196-272 | a trim fires exactly on an overweight position whose profit gate is open |
| Exits.TrimGateExactly | src/agent/runtime/risk.py:223-238 | the profit gate of a trim waits only while the position is carried at a loss beyond the tolerance that has not reached the trim stop |
| Exits.TrimComesFirst | src/agent/runtime/risk.py:456-466 | a due trim is taken before any exit or signal |
| Exits.HoldPasses | src/agent/runtime/risk.py:468-469 | a HOLD with no trim and no exit passes and sends nothing |
| Exits.DisabledSendsNoLots | src/agent/runtime/scheduler.py:1501-1506 | with the Risk Officer off the gate passes any signal with a quantity of zero |
| Exits.RefusalNamesItsReason | src/agent/runtime/risk.py:619-875 | each refusal carries the name of a gate whose bound is broken |
| Exits.BlockNamesGate | src/agent/runtime/scheduler.py:1413-1430 | the action record of a refusal carries that name |
| Exits.ExitSentExactly | src/agent/runtime/scheduler.py:1404-1437 | an exit signal sends a reducing order exactly when the daily trade limit has room and evaluation does not raise |
| Trim.CapLotsIsLargest | src/agent/runtime/risk.py:240-241 | the target of a trim is the largest lot count within the cap |
| Trim.UnlimitedTrimIsMinimal | src/agent/runtime/risk.py:240-251 | without a per-tick limit one trim leaves exactly that count |
| Trim.LimitedTrimExactly | src/agent/runtime/risk.py:240-251 | a per-tick limit caps the trimmed lots at those its share of the NAV covers, if that is at least one |
| Trim.TrimConverges | src/agent/runtime/risk.py:215-251 | repeated trims end, keep the side, never cut below that count and leave the weight within cap and band |
| ExposureLoops.SectorWeights | src/agent/runtime/risk.py:135-158 | the one-pass table holds, for every sector, the sum that the sector gate uses |
| ExposureLoops.ProjectedVar | src/agent/runtime/risk.py:746-764 | the projected weight list gives the VaR that the gate compares |
| ExposureLoops.SectorLoadIsValue | src/agent/runtime/risk.py:135-158 | the load of a sector times the NAV is the value of its rows, the traded ticker at its price and the others at their average |
| ExposureLoops.VarInRoubles | src/agent/runtime/risk.py:746-766 | the VaR times the NAV is 1.645 times the sigmas weighted with the values, the ticker's own counted from two returns on |
| ExposureLoops.OtherWeightsAreATable | src/agent/runtime/risk.py:750-759 | with unique tickers no weight is overwritten, so list and dictionary agree |
| ExposureLoops.OtherWeightsSigma | src/agent/runtime/risk.py:179-183 | sigma over the weight table is the sum over the other positions |
| Ladder.RungsFireOnceExactly | src/agent/runtime/risk.py:275-389 | no exit of the ladder, at any profit, signal and done set, is recorded as a done rung, if and only if the thresholds are more than the tolerance apart from each other and zero |
| Ladder.FiringStepIsNew | src/agent/runtime/risk.py:353-387 | a rung that is done is never proposed again |
| Ladder.CloseThresholdsRepeat | src/agent/runtime/risk.py:275-282 | thresholds within the tolerance make the partial rung be recorded as lock and repeat |
| Ladder.RecordedStep | src/agent/runtime/scheduler.py:1511-1519 | the journal later reads from an executed rung the step matching its rounded threshold, from a rejected one nothing, and nothing for the other side |
| Ladder.StepRemembered | src/agent/runtime/scheduler.py:1098-1137 | a recorded rung counts as done while its tick is in the tail and side and average stay |
| Ladder.LockRememberedExactly | src/agent/runtime/scheduler.py:1511-1519 | the lock rung is rebuilt if and only if its threshold survives rounding within the tolerance |
| Ladder.RungNotRefired | src/agent/runtime/scheduler.py:1098-1137 | across ticks and restarts an executed rung does not fire again on the same side and average |
| LadderRuns.RungGate | src/agent/runtime/risk.py:304-433 | a gate result recorded as a rung is that rung's take-profit on the held side at its average price |
| LadderRuns.DecisionOnRecord | src/agent/runtime/scheduler.py:628-695 | the record of a tick holds, for each ticker, the action taken when it was processed |
| LadderRuns.RungFiresOncePerWindow | src/agent/runtime/scheduler.py:1098-1137 | over any run of ticks and restarts, a rung executes again on the same side and average only after a tail window of other records |
| Journal.ScanProfitSteps | src/agent/runtime/scheduler.py:1098-1137 | the scan over the tail computes exactly the rungs recorded in the tail |
| Journal.StepsDoneExactly | src/agent/runtime/scheduler.py:1098-1137 | a rung counts as done exactly when one of the last 2000 records holds an executed take-profit of it, on this side, at an average within a millionth |
| Journal.StepIdExactly | src/agent/runtime/risk.py:275-282 | a threshold names a rung to within a billionth, the lock before the partial |
| TickSteps.ActionStatesOrders | src/agent/runtime/scheduler.py:1395-1555 | the action record claims exactly the signed lots that the broker accepted |
| TickSteps.ActionShape | src/agent/runtime/scheduler.py:1439-1555 | accepted orders extend, reduce within the position, or close all and open; direction, operation and quantity agree |
| TickSteps.ActionIsFill | src/agent/runtime/scheduler.py:1285-1378 | for any reply the simulated rows are the collateral fill of the claimed lots, through every operation; cash is that of the fill unless the reply reports a remaining cash |
| TickSteps.StepIsFill | src/agent/runtime/scheduler.py:622-695 | for any replies one Phase 2 step fills the net accepted lots; its cash is the reported remaining cash, else the simulated one |
| TickGates.OpeningMetItsMarket | src/agent/runtime/scheduler.py:638-654 | every opening of a tick was clear of its own spread and expected move, of the drawdown of the recorded NAVs against the live one and of the loss of the day |
| TickGates.OpeningMetItsBudget | src/agent/runtime/risk.py:803-822 | spend so far plus its cost with commission fitted the share of the NAV at the start of the tick |
| TickGates.OrdersSent | src/agent/runtime/scheduler.py:1439-1535 | a flip sends its closing lots and, only when these were accepted, its opening lots to the same side; any other allowed signal sends one order, risk exits to the side their operation names |
| TickGates.LastAcceptedReplySettles | src/agent/runtime/scheduler.py:1439-1555 | at most two orders are accepted, the last accepted one's reply settles the step, and a step is rejected exactly when orders were sent and none was accepted |
| TickGates.LimitHoldsBackAllowed | src/agent/runtime/scheduler.py:1413-1437 | a refusal is reported as such, and the trade limit holds back exactly the allowed signals that come after it |
| TickGates.LoggedEvents | src/agent/runtime/scheduler.py:1413-1450 | a step writes one event for a refusal, one for an order of a size clipped by more than the tolerance, and none otherwise |
| TickGates.StepsSeen | src/agent/runtime/scheduler.py:1098-1137 | the ladder of an item counts the rungs in the last 2000 records, those of the same tick included |
| Simulation.ComputePortfolioNav | src/agent/runtime/scheduler.py:815-863 | the loop computes cash plus collateral plus unrealized profit over all rows |
| Simulation.ApplySummaryDelta | src/agent/runtime/scheduler.py:1257-1378 | the step loop on the copied list computes the specified cash and positions |
| Fills.FillLookup | src/agent/runtime/scheduler.py:1334-1371 | a fill moves the ticker by exactly its lots and gives the combined average |
| Fills.FillFrame | src/agent/runtime/scheduler.py:1334-1371 | a fill leaves every other ticker alone |
| Fills.FillTotal | src/agent/runtime/scheduler.py:1334-1371 | any sum over rows moves by the traded row alone, including rows created and removed |
| Accounting.AverageBalances | src/agent/runtime/scheduler.py:1347-1352 | averaging keeps the total entry cost |
| Accounting.ValueChange | src/agent/runtime/scheduler.py:842-863 | change in row value plus cash moved is zero, or for covers twice the covered difference between price and entry |
| TickNav.FillNav | src/agent/runtime/scheduler.py:842-863 | a fill at the mark changes the NAV by minus its commission plus the cover drift |
| TickNav.NavAccounting | src/agent/runtime/scheduler.py:605-695 | over any order of tickers and any broker replies, end NAV is start NAV less commissions plus cover drift plus what reported cash figures differ from the simulated ones |
| TickNav.SilentRepliesAdjustNothing | src/agent/runtime/scheduler.py:1373-1376 | without reported cash, as in a dry run, that difference is zero |
| TickNav.SimulatedLotsFollowBroker | src/agent/runtime/scheduler.py:1285-1288 | simulated lots follow accepted orders if and only if there is a price or the signal does not oppose the position |
| TickNav.LotsConserved | src/agent/runtime/scheduler.py:622-695 | for every ticker, simulated lots minus accepted signed lots are constant through a tick |
| Charges.ChargeIsFee | src/agent/runtime/scheduler.py:1325-1333 | when replies carry no commission, as documented, a step is charged the commission on the lots the broker accepted, unless it is a refused flip |
| TickGates.StepChargeInGeneral | src/agent/runtime/scheduler.py:1325-1333 | with or without a stated commission, a step that is no refused flip is charged the stated one, else the commission on its accepted lots |
| Charges.FallbackChargedExactly | src/agent/runtime/risk.py:851-875 | what a refused flip is charged, and that this is right if and only if the rate is zero, or the opening half was sized and refused for as many lots as are closed, or it was not sized to any lot and the lot size is 1 |
| Charges.TickCostsItsFees | src/agent/runtime/scheduler.py:622-695 | a tick without refused flips costs exactly the commission on every filled lot, apart from cover drift and reported cash figures |
| TickLimits.OpeningStep | src/agent/runtime/scheduler.py:663-685 | a step that opens carries the size, cost and spend that the gates approved |
| TickLimits.BudgetHolds | src/agent/runtime/risk.py:803-819 | for every order and answer pattern the tick spend is within budget and bounds all opened notional, long, short and flip |
| TickLimits.TradesAreAcceptedOrders | src/agent/runtime/scheduler.py:656-662 | the trade counter moves by the accepted orders, half-filled flips and rejections included |
| TickLimits.TradeLimitHolds | src/agent/runtime/scheduler.py:1432-1437 | the counter equals accepted orders over a tick and stays within the limit, or limit plus one with flips |
| TickLimits.LimitExceededOnlyByFlip | src/agent/runtime/scheduler.py:1432-1501 | the limit is overshot if and only if a whole flip executes on the last free trade |
| TickLimits.NoFlipDiscipline | src/agent/runtime/risk.py:505-531 | with flips off no tick carries a position through zero |
| TickSafety.CashWithinNav | src/agent/runtime/scheduler.py:815-863 | cash does not exceed NAV while no short trades above twice its entry |
| TickSafety.FillKeepsSoundRow | src/agent/runtime/scheduler.py:1340-1363 | trading at the mark preserves that no short trades above twice its average |
| TickSafety.OpeningIsPaid | src/agent/runtime/risk.py:770-801 | an opening with commission is covered by cash, shorts through clipping alone |
| TickSafety.ReducingStepIsPaid | src/agent/runtime/scheduler.py:1503-1509 | the charge of a reduction is covered by its proceeds and cash, fallback notionals included |
| TickSafety.StepSolvent | src/agent/runtime/scheduler.py:1285-1378 | from non-negative cash a step leaves negative cash if and only if the broker reports it |
| TickSafety.Solvency | src/agent/runtime/scheduler.py:622-695 | over any sequence of steps cash is never negative unless the broker reports negative cash |
| TickExposure.OpenedBookWithinCaps | src/agent/runtime/risk.py:698-768 | the book after an opening has ticker, sector and VaR within their caps |
| TickExposure.OpeningStepWithinCaps | src/agent/runtime/scheduler.py:622-695 | the same for the simulated book after a step, flips included |
| TickExposure.ExposureThroughoutTick | src/agent/runtime/scheduler.py:622-695 | the same at every opening of a whole tick, from a soundly marked start |
| TickGuarantees.PhaseTwoGuarantees | src/agent/runtime/scheduler.py:605-695 | Phase 2 as started, for every shuffle and with or without reported cash: NAV accounting, solvency, budget and trade count together |
| Scheduling.LotSizesAgree | src/agent/runtime/scheduler.py:1014-1024 | the merged lot table agrees with every lot size the broker reports |
| Scheduling.StartIsReady | src/agent/runtime/scheduler.py:605-627 | Phase 2 starts with the NAV of the book and all fresh prices in the price map, in any ticker order |
| TickStart.OpeningPriceOfRow | src/agent/runtime/scheduler.py:605-609 | a held ticker opens Phase 2 at its positive Phase 1 price, else the broker's positive last price, else a positive quote, else without a price |
| TickStart.OpeningPriceElsewhere | src/agent/runtime/scheduler.py:1026-1068 | a ticker without open lots has its positive Phase 1 price or none |
| TickStart.OpeningNav | src/agent/runtime/scheduler.py:842-863 | the opening NAV is cash plus collateral and unrealized profit of every row at those prices, else at the average price |
| TickStart.StepReprices | src/agent/runtime/scheduler.py:686-693 | a decided ticker is repriced at its last price unless that is zero, no other is, and the NAV that the next ticker sees is taken at the new prices |
| TickStart.NavThroughoutTick | src/agent/runtime/scheduler.py:628-695 | so the live NAV is cash plus what the rows are worth at the live prices, after any items and replies |
| TickStart.IdleExactly | src/agent/runtime/scheduler.py:703-712 | a tick counts as idle exactly when the broker accepted none of its orders |
| Scheduling.TradingScheduler.constructor | src/agent/runtime/scheduler.py:87-128 | a new scheduler has the journal's latch and no idle ticks |
| Scheduling.TradingScheduler.LoadDepletedAt | src/agent/runtime/scheduler.py:168-175 | the backward scan returns what the newest latch record in the tail says |
| Scheduling.TradingScheduler.HandleBalance | src/agent/runtime/scheduler.py:177-288 | a check moves latch and journal as the latch machine does, and sends the close-all orders exactly on its reaction |
| Scheduling.TradingScheduler.RunPhase2 | src/agent/runtime/scheduler.py:605-712 | the loop over live variables ends in the run of the step function; journal and idle counter are updated as stated |
| Failsafe.TailReplayExactly | src/agent/runtime/scheduler.py:168-175 | reading only the tail restores the latch if and only if it is off or the tail still holds a latch record |
| Failsafe.LatchAgrees | src/agent/runtime/scheduler.py:177-288 | for every history of readings, failures and restarts in the window, latch, journal replay and first low reading agree |
| Failsafe.CloseAllNeedsGrace | src/agent/runtime/scheduler.py:229-270 | close-all happens if and only if the balance is low and the first low reading is at least the grace period old |
| Failsafe.CloseAllTimes | src/agent/runtime/scheduler.py:220-236 | in numbers: 60 seconds per configured minute, 1800 for 0, at a balance of at most the configured minimum, 0.01 for 0 |
| Failsafe.BalanceDecides | src/agent/runtime/scheduler.py:190-236 | the tick goes on and the latch is off exactly when the balance is above that minimum |
| Failsafe.LostLatchRestartsGrace | src/agent/runtime/scheduler.py:168-175 | a restart after the record left the tail restarts the grace period |
| Failsafe.ClosePositions | src/agent/runtime/scheduler.py:290-336 | the loop sends one flattening order per non-empty row |
| Failsafe.ClosePositionsFlattens | src/agent/runtime/scheduler.py:290-336 | an accepted order leaves exactly zero lots, a rejected one the old position |
| Failsafe.EveryPositionIsOrdered | src/agent/runtime/scheduler.py:290-336 | one order per open row, of all its lots against its side, whatever the answers |
| EngineBooks.SameAverage | src/agent/backtest/engine.py:349-362 | engine and simulation compute the same average through their different case splits |
| EngineBooks.FillRowsLookup | src/agent/backtest/engine.py:321-364 | an engine fill moves the ticker by its lots and gives the combined average |
| EngineBooks.EntryCostChange | src/agent/backtest/engine.py:332-347 | cash plus entry cost moves by realized profit, or by minus the commission when nothing is realized |
| EngineBooks.BookIdentity | src/agent/backtest/engine.py:138-229 | at every bar, cash plus entry cost is capital plus realized profit minus plain commissions |
| EngineBooks.EquityIdentity | src/agent/backtest/engine.py:444-452 | equity is that plus unrealized profit, at every bar |
| EngineBooks.ReversalIsCloseThenOpen | src/agent/backtest/engine.py:321-364 | one zero-crossing fill equals close then open, except that realized profit also bears the opening commission |
| EngineLedger.LedgerAtEveryBar | src/agent/backtest/engine.py:189-229 | at every bar of every run positions, cash and realized profits are those of the trade log, and each trade paid the commission rate |
| EngineLedger.HeldSinceRecorded | src/agent/backtest/engine.py:374-395 | at every bar an open position is on record since a bar after the warm-up, and was held on the same side at every bar since |
| EngineLedger.HoldingTimes | src/agent/backtest/engine.py:374-395 | each reducing fill, and no other, records the bars since the opening of the position |
| EngineBars.HistoryExactly | src/agent/backtest/engine.py:142-143 | the history at bar t is the bars up to t of the tickers that have had one |
| EngineBars.BarDecides | src/agent/backtest/engine.py:138-183 | the strategy decides on that history, the cash and the lots; its signals are carried out against the history, the NAV of bar t and a fresh budget |
| EngineBars.EquityCurve | src/agent/backtest/engine.py:219-228 | a run has one equity point per bar after the warm-up, the value of that bar's book at that bar's closes |
| EngineBars.EngineMarket | src/agent/backtest/engine.py:279-303 | the Risk Officer sees exactly the open rows, the cash, the NAV of the bar, the recorded equity and the statistics of the ticker's own history |
| EngineBars.OpeningMetItsMarket | src/agent/backtest/engine.py:279-303 | every opening of a backtest was clear of the expected move of its own history, of the drawdown of the recorded equity and of the loss of the day |
| EngineBars.BarWithinBudget | src/agent/backtest/engine.py:151-216 | with the Risk Officer on and flips off, a bar opens at most its budget share of the NAV it began with |
| EngineBars.UnguardedSignal | src/agent/backtest/engine.py:269-277 | without the Risk Officer a signal trades the largest lot count within its share of the NAV, and only what extends a position counts as spend |
| EngineBars.UnguardedWithoutNav | src/agent/backtest/engine.py:269-277 | and a NAV that is used up trades nothing |
| EngineBars.SameKeyExactly | src/agent/backtest/engine.py:367-371 | two positions share a ladder key exactly when ticker, side and average rounded to six digits agree |
| EngineRuns.NoLookahead | src/agent/backtest/engine.py:138-228 | histories that agree up to bar t give the same books and the same decisions at bar t, over two runs |
| EngineRuns.InvariantAtEveryBar | src/agent/backtest/engine.py:138-228 | at every bar tickers are unique, executed rungs are recorded without repetition, exactly open positions have an opening bar, and there is one holding duration per realized profit |
| EngineRuns.LadderFiresOnce | src/agent/backtest/engine.py:217-220 | along any run each rung executes at most once per ticker, side and rounded average |
| EngineRuns.RungIsRecorded | src/agent/backtest/engine.py:312-318 | every exit at a rung's threshold resolves to that rung at the position's key, so that no fill of a rung goes unrecorded |
| EngineRuns.PartialCloseKeepsKey | src/agent/backtest/engine.py:367-371 | a partial close keeps the ladder key |
| EngineRuns.NonZeroLookup | src/agent/backtest/engine.py:259-292 | leaving out empty holdings does not change what the Risk Officer sees |
| Backtesting.Backtester.ComputeNav | src/agent/backtest/engine.py:444-452 | the loop over holdings computes cash plus signed market value |
| Backtesting.Backtester.ApplyFill | src/agent/backtest/engine.py:321-364 | the in-place update gives the specified rows, cash and realized profit |
| Backtesting.Backtester.ExecuteFill | src/agent/backtest/engine.py:196-228 | one executed fill gives exactly the next book, with holding durations, profits and ladder steps |
| Backtesting.Backtester.RunSignal | src/agent/backtest/engine.py:152-228 | one signal, executed, skipped or raising, gives exactly the next book |
| Backtesting.Backtester.RunBar | src/agent/backtest/engine.py:138-229 | one iteration of the bar loop gives exactly the next book |
| Backtesting.Backtester.RunBacktest | src/agent/backtest/engine.py:102-229 | the whole loop ends in the book of the last bar; too few bars are refused |
| EngineSignals.SignalPassedOver | src/agent/backtest/engine.py:154-164 | a HOLD on a flat ticker or without the Risk Officer, an order without size and a bar without a price leave the book as it was |
| EngineSignals.SignalActedOn | src/agent/backtest/engine.py:154-201 | every other signal, a HOLD on a held ticker included, is resolved and filled at the next bar, with adverse slippage |
| EngineSignals.ExecutionPriceOf | src/agent/backtest/engine.py:92-99 | the execution price is the bar's positive open, else its positive close |
| EngineSignals.NoBarNoPrice | src/agent/backtest/engine.py:92-99 | a ticker without a bar has neither price |
| EngineSignals.DueStopCloses | src/agent/backtest/engine.py:156-201 | a position whose loss at the next bar's price has reached the stop is closed to the last lot by any signal on its ticker |
| Equivalence.AccountingModelsAgree | src/agent/backtest/engine.py:332-364 | after any fills both models hold the same lots and averages, collateral cash is standard cash less twice the short entry cost plus drift, and the NAVs differ by exactly that drift |
| Equivalence.SchedulerNavIsCollateralNav | src/agent/runtime/scheduler.py:842-863 | the scheduler's NAV is the collateral NAV of that theorem |
| Equivalence.EngineNavIsStandardNav | src/agent/backtest/engine.py:444-452 | the engine's NAV is the standard NAV of that theorem |
| Equivalence.FillCostsFrictions | src/agent/backtest/engine.py:196-202 | at the price before slippage, a fill in either direction costs exactly its commission plus the slippage on its value |
| Agreement.EngineFillsGatewayOrders | src/agent/backtest/engine.py:259-318 | on the same book and price the engine fills exactly the signed lots that the live gateway would have accepted |
| Agreement.BudgetsDiffer | src/agent/backtest/engine.py:221-226 | by how much engine and gateway charge the tick budget differently, per operation |
| Agreement.SignalKeepsSide | src/agent/backtest/engine.py:189-228 | with the Risk Officer on and flips off, no backtest fill carries a position through zero or touches another ticker |
| Agreement.SignalCrossesExactly | src/agent/backtest/engine.py:259-318 | a backtest signal crosses zero if and only if it executes as a flip or, without the Risk Officer, opposes the position with more lots |
| EngineExposure.BacktestOpeningBound | src/agent/backtest/engine.py:279-318 | after an opening of a backtest the position is worth at most the cap's share of the larger of cash and NAV |
| EngineExposure.OpeningFills | src/agent/backtest/engine.py:160-228 | a signal whose lots fit is filled with exactly those lots at the execution price |
| EngineExposure.CourseBooks | src/agent/backtest/engine.py:138-228 | the books, bar by bar, of a run that shorts one ticker and buys another up to its cap |
| EngineExposure.BacktestCapsHoldExactly | src/agent/backtest/engine.py:150-183 | both caps hold after every opening of every signal of every run if and only if cash at the decision does not exceed the NAV computed at the start of the bar |
| EngineExposure.CashAboveNavExactly | src/agent/backtest/engine.py:444-452 | backtest cash exceeds NAV if and only if the shorts are worth more than the longs |
| ShortCheck.FirstFreeIsFirst | src/agent/runtime/short_check.py:95-110 | AUTO takes the first candidate that is not held, and none exactly when all are held |
| ShortCheck.ConsistentIsSafe | src/agent/runtime/short_check.py:62-93 | a consistent state file means at most one SELL and one BUY, the BUY after a successful SELL of the same ticker and its delay |
| ShortCheck.DoneIsFlatExactly | src/agent/runtime/short_check.py:171-205 | done means net zero lots if and only if the bought quantity is the sold one |
| ShortCheck.LivesAreSafe | src/agent/runtime/short_check.py:62-93 | over any crashes, restarts, torn writes and unreadable files: as long as no order was forgotten, the broker saw one SELL and one later BUY at most, and done means flat exactly for equal quantities |
| ShortCheck.NextLifeSafeExactly | src/agent/runtime/short_check.py:221-235 | after a sale, every next life that can read the file is safe if and only if the last write left a readable one |
| ShortCheck.FreshLifeCompletes | src/agent/runtime/short_check.py:62-93 | an undisturbed life with a free ticker sells, waits until the delay has passed since the recorded sale, buys back the same lots and ends done and flat |
| ShortCheck.WaitingSaleIsCovered | src/agent/runtime/short_check.py:159-205 | an undisturbed life that finds a sale waits for what is left of the delay and covers it |
| ShortCheck.OverdueSaleIsCovered | src/agent/runtime/short_check.py:159-169 | once the delay has passed not even a stop request keeps the sale open |
| ShortCheck.UndatedSaleWaits | src/agent/runtime/short_check.py:207-216 | a sale without a readable time is covered after the whole delay |
| ShortCheck.NoCandidateNoOrder | src/agent/runtime/short_check.py:80-93 | without a free ticker no order is sent, and the next life may look again |
| ShortCheck.RejectedSaleIsFinal | src/agent/runtime/short_check.py:115-157 | a sale that is not a success is not covered and leaves a final state |
| ShortCheck.FinalStatesStay | src/agent/runtime/short_check.py:64-78 | a life in an uncertain or final state does nothing |
| ShortCheck.StopKeepsSale | src/agent/runtime/short_check.py:159-169 | a stop request during the wait leaves the sale to be covered by a later life |
| ShortCheck.ForgottenSellsAgain | src/agent/runtime/short_check.py:80-93 | a life that does not see the state after a sale sells again |
| ShortCheck.ShortCheckRunner.WriteState | src/agent/runtime/short_check.py:230-235 | the overwrite in place, which a death in the middle may leave unreadable |
| ShortCheck.ShortCheckRunner.SubmitSell | src/agent/runtime/short_check.py:115-157 | the state is written before and after the order, wherever the process dies, as the life machine says |
| ShortCheck.RemainingPasses | src/agent/runtime/short_check.py:207-216 | waiting the returned time passes the recorded sale time plus the delay |
| ShortCheck.ShortCheckRunner.RemainingDelay | src/agent/runtime/short_check.py:207-216 | computes that time |
| ShortCheck.ShortCheckRunner.WaitThenCover | src/agent/runtime/short_check.py:159-169 | waits and covers, or stops, as the life machine says |
| ShortCheck.ShortCheckRunner.SubmitBuy | src/agent/runtime/short_check.py:171-205 | the state is written before and after the order, wherever the process dies, as the life machine says |
| ShortCheck.ShortCheckRunner.Run | src/agent/runtime/short_check.py:62-93 | one life reads the file, does nothing in uncertain or final states, and else sells, waits and covers, as the life machine says |
| ShortCheck.ShortCheckRunner.Lives | src/agent/runtime/short_check.py:62-93 | any number of lives is the run of the life machine, safe as long as no order was forgotten |
| Metrics.PeakIsMaximum | src/agent/backtest/metrics.py:95-96 | the running peak is the maximum so far, and attained |
| Metrics.DrawdownIsLargestFall | src/agent/backtest/metrics.py:91-99 | on non-negative equity the one-pass drawdown is the largest fall over all pairs, attained, and in [0, 1) on positive equity |
| Metrics.NoDrawdownExactly | src/agent/backtest/metrics.py:91-99 | on non-negative equity the drawdown is zero exactly when equity never falls |
| Metrics.DrawdownBoundsFallsExactly | src/agent/backtest/metrics.py:91-99 | on any curve the one-pass drawdown bounds every fall if and only if equity never falls from positive to negative, or some worst such fall starts from the only positive level before it |
| Metrics.DrawdownDiffersOnDebt | src/agent/backtest/metrics.py:91-99 | on three points that rise and then go negative, the fall from the first exceeds the one-pass drawdown |
| Metrics.ReturnsCompound | src/agent/backtest/metrics.py:17-33 | for every curve, the product of one plus returns is one plus total return if and only if equity does not pass through zero or ends there; from a start at zero, if and only if it stays there or ends where it first rose to |
| UniverseSelect.SelectLlmTickers | src/agent/runtime/universe_select.py:7-49 | the loops compute the specified selection |
| UniverseSelect.SelectionGuarantees | src/agent/runtime/universe_select.py:16-49 | below the cap: no duplicates, only universe tickers, all held ones first, no unheld alerted ones, exact length, no excluded ticker more liquid than an included one |
| UniverseSelect.NoCapSelectsAll | src/agent/runtime/universe_select.py:16-17 | no cap, or one the universe fits, selects the universe |
| UniverseSelect.MostLiquidFirst | src/agent/runtime/universe_select.py:36-46 | nothing eligible is left out that scores higher than an unheld ticker taken in, a missing score counting as zero |
| UniverseSelect.NormalizedExactly | src/agent/runtime/universe_select.py:22-24 | a row counts for its ticker whatever blanks surround it and whatever its case |
| UniverseSelect.SortIsStable | src/agent/runtime/universe_select.py:40-46 | tickers of equal liquidity keep their universe order |
| Counterexamples.ShippedSettings | src/agent/config.py:173-217 | under the shipped settings openings are always paid and no rung repeats; both caps hold if and only if cash does not exceed NAV |
| Counterexamples.CoverLostAtZeroNav | src/agent/runtime/risk.py:725-731 | an account with a NAV of zero on which buying a short back raises |
| Counterexamples.CloseWithoutPrice | src/agent/runtime/scheduler.py:1280-1283 | a sale without a price that the broker fills and the simulation ignores |
| Counterexamples.RefusedFlipUndercharged | src/agent/runtime/risk.py:862-865 | a refused flip charged a tenth of its commission |
| Counterexamples.LatchLostInTail | src/agent/runtime/scheduler.py:168-175 | a journal that says depleted while its tail does not |
| Counterexamples.LockForgotten | src/agent/runtime/scheduler.py:1511-1515 | a lock threshold lost by rounding |
| Counterexamples.DoneButShort | src/agent/runtime/short_check.py:171-205 | two lives with different quantities: done, and one lot short |
| Counterexamples.SoldTwice | src/agent/runtime/short_check.py:221-235 | two lives: the write after the sale is cut short, and the second life sells again |
| Counterexamples.BacktestOverCap | src/agent/backtest/engine.py:150-228 | a whole run under the shipped settings whose second short weighs 17 per cent against a cap of 15 |
| Counterexamples.ReversedUnguarded | src/agent/backtest/engine.py:269-277 | a whole run with flips off and no Risk Officer that turns one lot long into 98 short |
| Counterexamples.BudgetsApart | src/agent/backtest/engine.py:215-216 | one opening that the backtest counts as 150 and the live gateway as 150.075 |

## Left out

- Language-model calls, prompts, debate and news nodes, HTTP clients, retries, asyncio, logging and the web service: a decision and every reply are inputs.
- Floating-point rounding: money is exact; only the explicit tolerances and the rounding to six digits are kept, with exact ties rounded up.
- Exceptions raised by the broker client after an order was sent, in particular between the two orders of a flip.
- Journal files: the journal is a sequence of records that are always written and readable; damaged lines and other event fields are not part of this model.
- Standard deviation and log returns: sigma is an input, with the number of returns it was computed from.
- Loading and version filtering of the NAV history: the history is an input with a day per record.
- Parsing of settings, environment defaults and wrongly typed position rows; positions always carry a number of lots and an average price.
- Quotes fetched for held tickers without a price: the fetched prices are an input map.
- Lot-size refresh from the exchange, the sector table and the default lot table: inputs.
- Case folding of tickers in the scheduler's lookups: tickers are compared as they are; only the selection of tickers strips and upper-cases, for ASCII.
- The daily trade count and turnover read back from earlier ticks: the starting count is an input.
- Backtest report statistics (Sharpe, Sortino, bootstrap, turnover, hit rate, gross exposure, take-profit continuation) and the buy-and-hold curve: they do not feed back into the run.
- Aligning price tables by timestamp: a ticker's prices are one optional bar per index entry.
- Market-context regimes, prefilters, trading hours and the notification webhook.
- Backtesting.Backtester.RunBacktest: the dictionary of positions is a list of holding objects with distinct tickers, in the order of first use.
- RiskProperties.InstrumentCapHolds: assumes cash at most NAV, which RiskLimits.CapsHoldExactly shows to be necessary and TickSafety.CashWithinNav derives from the marks; RiskProperties.ScaledCapHolds is the bound without it.
- RiskLimits.OpeningsPaidExactly: for settings that let some opening pass the other gates; under others, with non-negative volatilities, there is no opening and nothing to state.
- RiskLimits.CapsHoldExactly: for settings that let some opening pass the other gates; under others, with non-negative volatilities, there is no opening and nothing to state.
- EngineExposure.BacktestCapsHoldExactly: for settings that let some opening pass the other gates and a cash buffer below the whole cash; with a larger buffer no long is ever opened.
- TickExposure.ExposureThroughoutTick: assumes that no short trades above twice its entry when the tick starts, from which cash at most NAV follows at every step, also for reported cash.
- Charges.ChargeIsFee: assumes replies without a commission of their own, which the broker's documented reply does not have; TickGates.StepChargeInGeneral covers a commission that is stated.
- TickSafety.Solvency: assumes replies without a commission of their own, a rate of at most 1 and cap * (1 + rate) at most 1; RiskLimits.OpeningsPaidExactly shows this necessary where the sector cap is no smaller than the instrument cap and neither exceeds the whole cash.
- ShortCheck.LivesAreSafe: the process reads the state file once per life; a read that fails later in the same life is not part of this model.
- TickLimits.NoFlipDiscipline: assumes one item per ticker in a tick, as the universe provides; a second item could reopen on the other side.
- LadderRuns.RungFiresOncePerWindow: assumes thresholds that are apart and survive rounding, and an average price that does not round to zero.
- Openings.OpensExactly: assumes a positive NAV and a drawdown limit in (0, 1].
