# Verified model of the Flash terminal's trading core

Flash Terminal is a command-line client for leveraged trading. This project models, in Dafny, the parts of
it in which a small slip costs money or confuses the user: the paper-trading account and its lock, the two
bounded edit distances behind typo correction, the guards that live in time (the duplicate-trade cache, the
API health gate, the price circuit breaker, the confirmation prompt) and the parser that reads a trade in any
word order. Amounts are exact reals and times are integers of milliseconds.

`dafny verify dfyconfig.toml` checks everything.

| file | what it holds |
|---|---|
| `Ledger.dfy` | the paper account as a value and its operations as functions, branch by branch |
| `SimClient.dfy` | the client as a class with position objects, each method proved to do the Ledger operation |
| `Invariant.dfy`, `Runs.dfy` | what each operation keeps; runs of operations and of take-profit / stop-loss sweeps |
| `Amounts.dfy` | what each operation costs, earns and leaves, and exactly when it is accepted, in plain numbers |
| `Conservation.dfy`, `NoFreeProfit.dfy`, `PathIndependence.dfy`, `MergeMean.dfy`, `Sweeps.dfy` | the money theorems |
| `TradeLock.dfy`, `Interleaved.dfy`, `InterleavedQuotes.dfy`, `InterleavedSweeps.dfy`, `InterleavedMoney.dfy` | the promise-chain mutex, the client with its operations split at their awaits, where its quotes come from, what its sweeps close, and its money |
| `EditDistance.dfy`, `BoundedDistance.dfy`, `FuzzyMatch.dfy` | the edit distance, its two implementations, and their callers |
| `MagicGuard.dfy`, `HealthGuard.dfy`, `PriceBreaker.dfy`, `Confirmations.dfy` | the guards as classes, and as state machines over all interleavings |
| `MagicParser.dfy` | the order-free trade parser, from words to a trade |
| `RealArith.dfy`, `Letters.dfy`, `Wrappers.dfy` | arithmetic facts, upper and lower case, and the Option type |

How the parts connect: a function of module Ledger says what an operation does to the account; module Amounts says
it again in prices, sizes and rates alone; the class `SimulatedFlashClient`, with the source's own arithmetic in its
methods, is proved to do exactly that; `Interleaved.Serialisable` shows that any interleaving of
the real, suspended operations amounts to some sequence of those functions; and the money theorems hold of
every such sequence. Three promises turn out to need a condition, given as an exact one:

* A close with a negative percentage or amount is accepted by the client. It mints collateral
  (`NoFreeProfit.NegativeCloseMintsEquity`), always, unless it leaves dust (`NoFreeProfit.EquityRisesIffNegative`,
  and over whole runs `NoFreeProfit.EquityNeverRisesExactlyWithoutMinting`); it also breaks path independence, exactly
  when `PathIndependence.PathDependence` says. The tool through which users close positions refuses percentages outside
  1 to 100 and amounts that are not positive (`src/tools/flash-tools.ts:539-555`), so such requests reach the client
  only from other callers of closePosition; `AsksNonNegative` is the guard those lack.
* A typed-ahead yes does settle a question that had not been asked yet, in simulation mode and only there
  (`Confirmations.SafeExactlyInLiveMode`).
* The price breaker's back-off bound fails for calls that crowd, which a caller can check beforehand: the call would
  fetch beside others in flight, and the failures counted plus the fetches in flight are three or more. Runs without
  such calls keep the bound (`PriceBreaker.UncrowdedCallsBackOff`), calls made one after the other among them. After
  such a run a call leaves failures spaced by their cooldowns, however everything in flight ends, if and only if it does
  not crowd either (`PriceBreaker.SpacedExactlyWithoutCrowding`).

Where comments and code disagree the code is followed. `src/client/magic-client.ts:184` says the signature cache is
keyed by operation, market and side; the code adds the amounts of an open or collateral change to the key.
`src/ai/interpreter.ts:108` calls its distance one of at most 3; it answers 4 for a length gap above 3 and
otherwise the exact distance, however large (`BoundedDistance.UncappedAnswersDiffer`).

## Model

| member | source | states |
|---|---|---|
| Ledger.Find | src/client/simulation.ts:326 | the index returned is the first position with that market and side; the list length means there is none |
| Invariant.StepKeepsInv | src/client/simulation.ts:196-523 | every operation on every input, accepted or not, keeps: balance at least 0, one position per market and side, positive size, collateral and entry, leverage equal to size over collateral, at most 500 trades of history |
| Invariant.PartialCloseKeepsLeverage | src/client/simulation.ts:341-392 | a partial close leaves the leverage as it was and at least 50 cents of size |
| Invariant.AcceptedOpenIsNotLiquidated | src/client/simulation.ts:218-246 | an accepted open has its liquidation price strictly on the losing side of its fill, and its collateral covers its own close fee |
| Invariant.LiquidationFormsAgree | src/utils/protocol-liq.ts:176-222 | the liquidation price computed from leverage alone equals the one computed from size and collateral |
| Invariant.AcceptedRemovalIsNotLiquidated | src/client/simulation.ts:461-487 | an accepted removal leaves a liquidation price, computed from the remaining size and collateral, that the current price has not reached |
| Invariant.RemovingUndoesAdding | src/client/simulation.ts:418-501 | removing what was just added restores balance and positions exactly when the position was not at risk before; otherwise it is refused |
| Amounts.CloseEarns | src/client/simulation.ts:334-363 | in plain numbers: a close takes what was asked, or all of it from 99.9 percent on or when less than 50 cents would stay, and its profit times the entry price is the size taken times the price less the entry for a long, times the entry less the price for a short |
| Amounts.ClosePays | src/client/simulation.ts:365-373 | the fee is the size taken times the rate when both are positive, and the balance grows by the share of the collateral plus profit less fee, or not at all when that is negative |
| Amounts.CloseLeaves | src/client/simulation.ts:375-411 | a full close removes the position; a partial one leaves the rest of size and collateral at the same leverage and entry; the answer and the recorded trade say which it was |
| Amounts.CloseAcceptedExactly | src/client/simulation.ts:331-352 | a close is accepted if and only if the position is there, its market has a positive price, and an amount that counts is no larger than the position |
| Amounts.FreshOpenFills | src/client/simulation.ts:220-290 | an accepted open with no position on its market and side appends one whose entry times 10000 is the price times 10000 plus the slippage in basis points for a long, minus it for a short |
| Amounts.MergedOpenFills | src/client/simulation.ts:220-275 | with a position there, size and collateral add up, the entry is the average weighted by size of the old entry and that shifted price, and nothing else changes but leverage, fee and liquidation price |
| Amounts.OpenCosts | src/client/simulation.ts:223-249 | an accepted open takes the collateral and the open rate on collateral times leverage from the balance |
| Amounts.OpenIsRecorded | src/client/simulation.ts:292-303 | the trade recorded carries the identifier of the position held, if any, and the price before the shift |
| Amounts.OpenAcceptedExactly | src/client/simulation.ts:203-246 | an open is accepted if and only if the leverage is at least 1.1 and within the limit, the market has a positive price, margin and close fee rates are not negative and together take less than the collateral, slippage leaves a short a positive fill, and the balance covers a positive collateral and the fee |
| Amounts.LiquidationLeavesTheMargin | src/utils/protocol-liq.ts:176-222 | at the liquidation price the loss is what the collateral exceeds margin and close fee by; there is none exactly when a rate is negative, nothing is left for a loss, or a long could lose its whole size |
| Amounts.AddingMovesTheAmount | src/client/simulation.ts:418-447 | adding is accepted if and only if the amount is positive, within the balance and the position there; it moves the amount from the balance into the position and records it at the current price |
| Amounts.RemovingMovesTheAmount | src/client/simulation.ts:453-501 | taking out is accepted if and only if the amount is positive, less than the collateral, and what stays covers margin, close fee and the loss at the current price; it moves the amount back |
| Amounts.OneMarkKeepsTheOther | src/client/simulation.ts:506-512 | setting one mark keeps the other and everything else |
| Runs.SweepIsItsCloses | src/client/simulation.ts:529-559 | a sweep has the same effect as its full closes made one by one |
| Runs.HistoryIsARun | src/client/simulation.ts:187-565 | every history of operations and sweeps is a run of single operations |
| Conservation.ExactConservation | src/client/simulation.ts:248-369 | over every run of a new account, cash + collateral + fees - realised profit is the initial balance plus exactly what the zero floor forgave; it equals the initial balance just when the floor never bit |
| Conservation.RunBook | src/client/simulation.ts:361-369 | the same from any account in order, for any list of operations |
| Conservation.HistoryIsTheRecentSuffix | src/client/simulation.ts:698-702 | after any run the history kept is the last 500 trades of all ever recorded, in order |
| NoFreeProfit.NoProfitWithoutPriceMovement | src/client/simulation.ts:220-383 | while prices stand still, no run of opens, merges, non-negative closes, collateral changes and sweeps raises balance plus collateral above the initial balance |
| NoFreeProfit.RunNoProfit | src/client/simulation.ts:220-266 | from any account whose entries are no better than the price, no such run raises the equity, and entries stay no better than the price |
| NoFreeProfit.EquityNeverRisesExactlyWithoutMinting | src/client/simulation.ts:196-501 | in any run at standing prices, negative closes included, the equity rises at no call if and only if no call is, in the account it meets, an accepted close that asks for a negative part and leaves at least the dust limit |
| NoFreeProfit.EquityRisesIffNegative | src/client/simulation.ts:340-383 | an accepted close at a standing price raises the equity if and only if it asks for a negative part and at least the dust limit would remain |
| NoFreeProfit.NegativeCloseMintsEquity | src/client/simulation.ts:343-344 | a close of -100 percent is accepted and makes the account richer |
| PathIndependence.PathIndependence | src/client/simulation.ts:338-383 | at one price and rate, any list of non-negative closes that ends with the position gone changes balance, fees, realised profit and positions exactly as one full close, whatever was snapped, refused or floored |
| PathIndependence.PathDependence | src/client/simulation.ts:338-383 | with arbitrary closes the two agree if and only if no executed negative close left the position open, or the position is worth exactly nothing and pays no fee |
| PathIndependence.NegativeCloseBreaksPathIndependence | src/client/simulation.ts:343-344 | closing -100 percent and then everything ends with other money than closing everything at once |
| PathIndependence.ClosedForm | src/client/simulation.ts:338-369 | the totals of every list of closes that ends the position: full-close totals plus a fee and a floor term per reopened size |
| PathIndependence.CloseEachSettles | src/client/simulation.ts:321-383 | on the account, a list of closes changes balance, totals and the position list as the list does on the single position |
| MergeMean.EntryIsTheMean | src/client/simulation.ts:257-266 | the entry of a position built by any number of fills is their size-weighted mean |
| MergeMean.OrderDoesNotMatter | src/client/simulation.ts:257-267 | the same fills in another order build the same entry, size, collateral and fees |
| MergeMean.MergingNeverFlatters | src/client/simulation.ts:257-338 | at every exit price the merged long shows at most the profit of the separate longs, the merged short at least that of the shorts, with equality exactly when all fills are at one price |
| MergeMean.OpensBuildTheMean | src/client/simulation.ts:251-292 | on the account, any opens on one market and side leave exactly one position there, built from the accepted fills |
| Sweeps.SweepClosesExactlyTheHit | src/client/simulation.ts:529-559 | at fixed prices a sweep leaves exactly the positions whose trigger is not hit, unchanged and in order, and credits the floored returns of the others |
| Sweeps.SweepSettles | src/client/simulation.ts:529-559 | for all prices before and all refreshes during it, a sweep keeps, credits, books and throws what a walk over the positions alone says |
| Sweeps.SweepClosesExactly | src/client/simulation.ts:529-559 | for all prices and refreshes, a position is closed if and only if the sweep reaches it, the price then in force has hit a trigger, and the close finds a price |
| Sweeps.SweepIsIdempotent | src/client/simulation.ts:529-559 | sweeping again at the same prices changes nothing |
| Sweeps.SetMarksDecideTheSweep | src/client/simulation.ts:506-559 | after both marks are set, whatever prices do, a sweep closes the position if and only if it gets there, the market has a price by then that has crossed a mark, and the close finds a price |
| Sweeps.StopLossDecidesTheSweep | src/client/simulation.ts:549-556 | with a stop-loss and no take-profit, whatever prices do, a sweep closes the position if and only if it gets there, the price by then is at or past the stop, and the close finds a price |
| Sweeps.TakeProfitDecidesTheSweep | src/client/simulation.ts:539-547 | the same for a take-profit and no stop-loss |
| Sweeps.OneMarkDecidesAtFixedPrices | src/client/simulation.ts:529-559 | at fixed prices, of the prices alone: a position with one mark is dropped if and only if its market has a price that has reached the mark |
| Sweeps.RemovedMarksSurvive | src/client/simulation.ts:517-559 | after its marks are removed a position survives every sweep, whatever the refreshes bring and whatever throws |
| SimClient.SimulatedFlashClient.OpenPosition | src/client/simulation.ts:196-309 | the object's new account and answer are those of the open; a throw leaves the account as it was |
| SimClient.SimulatedFlashClient.PlaceFill | src/client/simulation.ts:251-290 | merges into the position object held, or appends a new one, without aliasing |
| SimClient.SimulatedFlashClient.MergeInto | src/client/simulation.ts:257-274 | updating the object's fields in place, in the source's order, is the merge |
| SimClient.SimulatedFlashClient.ClosePosition | src/client/simulation.ts:321-411 | the object's new account and answer are those of the close; a throw leaves the account as it was |
| SimClient.SimulatedFlashClient.QuoteClose | src/client/simulation.ts:334-363 | the step-by-step fractions, snaps and dust rule give the figures of the close |
| SimClient.SimulatedFlashClient.TakeOut | src/client/simulation.ts:371-379 | splicing or reducing in place changes exactly the position at that index |
| SimClient.SimulatedFlashClient.AddCollateral | src/client/simulation.ts:418-447 | the object's new account and answer are those of the operation, and the list keeps its objects |
| SimClient.SimulatedFlashClient.RemoveCollateral | src/client/simulation.ts:453-501 | the same, with the liquidation test at the refreshed price |
| SimClient.SimulatedFlashClient.SetTpSl | src/client/simulation.ts:506-512 | only the two marks of the named position change |
| SimClient.SimulatedFlashClient.RemoveTpSl | src/client/simulation.ts:517-523 | both marks of the named position are dropped |
| SimClient.SimulatedFlashClient.CheckTpSlTriggers | src/client/simulation.ts:529-559 | the reverse loop that splices the list it walks is the sweep |
| TradeLock.ExclusiveAndFifo | src/client/simulation.ts:54-66 | in every reachable state at most one body runs, bodies begin in arrival order, and all earlier callers have finished before a later one begins |
| TradeLock.ExactlyOneActive | src/client/simulation.ts:54-66 | while any caller is unfinished, exactly one caller is running or able to start |
| TradeLock.EveryCallerIsServed | src/client/simulation.ts:54-66 | every start and finish brings the queue one step nearer to being served, and until all are served one is possible |
| TradeLock.LaterCallersWait | src/client/simulation.ts:544-554 | while a body has not finished, no caller that arrived after it can run, so a body must not wait for the lock itself |
| Interleaved.Serialisable | src/client/simulation.ts:54-559 | however callers, price changes and unlocked mark changes interleave, replaying the logged operations one by one gives the client's balance, positions, totals and history |
| Interleaved.AnswersAreSequential | src/client/simulation.ts:196-501 | every answered caller got the answer its operation gives at its place in that sequence |
| Interleaved.LogFollowsLockOrder | src/client/simulation.ts:54-66 | the sequence follows arrival order, each trading caller at most once and exactly once when answered, sweeps only with full closes, the rest unlocked mark changes |
| InterleavedQuotes.LoggedPricesStood | src/client/simulation.ts:196-411 | every price a logged call used stood in the price table at some moment at which its caller held the lock |
| InterleavedQuotes.SweepsCloseOnlyWhatTheyFoundHit | src/client/simulation.ts:529-559 | every close a sweep logs is of a position it looked at while it ran and found hit |
| InterleavedSweeps.EveryHitIsClosed | src/client/simulation.ts:529-559 | a sweep that looks at a position and finds it hit closes that position next: however everything else moves, it gets past that turn only with a full close of it in the log |
| InterleavedSweeps.SweepLeavesTheUnhit | src/client/simulation.ts:529-559 | a sweep that starts and returns while prices and marks stand still leaves exactly the unhit positions, in order, whoever arrives meanwhile and whatever its awaits answer |
| Interleaved.IndexStillNamesThePosition | src/client/simulation.ts:325-376 | at any moment of a close's wait for its fee rate, the remembered index still holds the remembered object, with the market and side asked for and its fields but for marks |
| Interleaved.InterleavedConservation | src/client/simulation.ts:361-369 | exact conservation holds of the interleaved client |
| Interleaved.SomeoneCanMove | src/client/simulation.ts:54-66 | while a caller is unfinished some caller can start, resume or release, whatever the awaited calls answer |
| Interleaved.EveryMoveLowers | src/client/simulation.ts:54-66 | every start and release lowers the starts and releases still owed, every resumption the turns left to the body that runs |
| Interleaved.ResumptionsAreBounded | src/client/simulation.ts:196-559 | a body that has started ends after a number of resumptions fixed when it started, however callers, prices and marks move around it |
| InterleavedMoney.NoProfitUnderInterleaving | src/client/simulation.ts:196-559 | however callers interleave, with quotes taken at one moment and used at another, cash plus collateral never exceeds the initial balance while every refresh brings the standing prices and no close is negative |
| EditDistance.DistanceZero | src/ai/interpreter.ts:109-125 | the distance is 0 exactly for equal strings |
| EditDistance.Symmetric | src/ai/interpreter.ts:109-125 | the distance is symmetric |
| EditDistance.Triangle | src/ai/interpreter.ts:109-125 | the triangle inequality |
| EditDistance.FewestEdits | src/ai/interpreter.ts:109-125 | the distance is the least number of insertions, deletions and replacements that lead from one string to the other |
| EditDistance.GapIsDistanceExactly | src/ai/interpreter.ts:109-125 | the distance is just the difference of the lengths if and only if the shorter string is a subsequence of the longer |
| BoundedDistance.MatrixDistance | src/ai/interpreter.ts:109-125 | the matrix loop answers the exact distance, or 4 for two non-empty strings whose lengths differ by more than 3 |
| BoundedDistance.RowsDistance | src/cli/completer.ts:313-337 | the two-row loop answers the exact distance, or 4 when the distance is above 3 |
| BoundedDistance.AllLaterRowsAtLeast | src/cli/completer.ts:332 | row minima never decrease, so the distance is at least any row's minimum |
| BoundedDistance.CappedAnswersAgree | src/cli/completer.ts:313-337 | capped at 4 both answers are the true distance, and neither ever exceeds it |
| BoundedDistance.ThresholdsAreExact | src/ai/interpreter.ts:132-152 | for every threshold up to 3, testing either answer is testing the true distance |
| BoundedDistance.MatrixIsExactWhen | src/ai/interpreter.ts:109-125 | the matrix answer is the distance itself if and only if a string is empty, the lengths differ by at most 3, or they differ by 4 and the shorter string is a subsequence of the longer |
| BoundedDistance.UncappedAnswersDiffer | src/ai/interpreter.ts:113 | above the cap the matrix answer can be less than the distance |
| FuzzyMatch.NoTokenIsNearBoth | src/ai/interpreter.ts:127-135 | no token is within distance 1 of both sides |
| FuzzyMatch.FuzzySide | src/ai/interpreter.ts:127-135 | the side answered is the one within distance 1, whichever side is tried first; nothing when neither is |
| FuzzyMatch.FuzzyMarket | src/ai/interpreter.ts:138-155 | the direct market, else the first market truly within its limit of 1 or 2, else the first alias truly within 1 |
| FuzzyMatch.CloseCommands | src/cli/completer.ts:292-295 | the suggestions are exactly the commands within true distance 2; the length test drops none |
| FuzzyMatch.NearKeepsExactly | src/cli/completer.ts:292-295 | each of them is suggested as often as it is listed |
| FuzzyMatch.NearKeepsOrder | src/cli/completer.ts:292-295 | and in the order of the list |
| MagicGuard.MagicTradeGuard.AcquireTradeLock | src/client/magic-client.ts:1574-1582 | refuses a held key and a 33rd key and then changes nothing, else adds exactly that key |
| MagicGuard.ReleaseUndoesAcquire | src/client/magic-client.ts:1574-1586 | letting a key go undoes taking it, touches no other key, and within the limit of 32 leaves the key free to be taken again |
| MagicGuard.MagicTradeGuard.CheckRecentTrade | src/client/magic-client.ts:1588-1595 | the loop that deletes while iterating drops exactly the entries over a minute old; the hit is one under a minute old |
| MagicGuard.RecordedIsAnswered | src/client/magic-client.ts:1588-1599 | a recorded signature answers for its own operation for under 60 seconds and changes the answer of no other, and no purge in between changes any answer |
| MagicTrades.GuardHolds | src/client/magic-client.ts:580-712 | under every interleaving the keys held are exactly those of the calls in flight, one call each, at most 32; a second send of an operation is checked only after the first ended, and at least 60 seconds after its recording if it succeeded |
| MagicTrades.CachedExactlyInsideTheWindow | src/client/magic-client.ts:733-741 | a call that gets the lock is answered from the cache if and only if the same operation was recorded under 60 seconds ago |
| MagicTrades.BeginDropsTheExpired | src/client/magic-client.ts:1588-1595 | a call that gets the lock for a cached operation drops exactly the entries over a minute old, found or not; any other call leaves the cache alone |
| MagicTrades.OnlyItsHolderFreesAKey | src/client/magic-client.ts:1574-1586 | in every reachable state a key is freed if and only if the call in flight that holds it ends; a refused call frees nothing and leaves the cache alone |
| HealthGuard.Guard.CheckApiHealth | src/core/api-health-guard.ts:58-84 | a healthy status is served as fresh under 10 seconds and as stale under 30, and a refresh is started only when none is in flight |
| HealthGuard.Guard.PerformHealthCheck | src/core/api-health-guard.ts:114-164 | the cache holds a status exactly when the report says ok within five seconds with pools and markets, and then it tells what the report said |
| HealthRuns.GuardHolds | src/core/api-health-guard.ts:58-179 | under all interleavings of calls, late answers, timeouts and refreshes: every status handed out is that of a check that passed and, from the cache, is under 30 seconds old; the cache holds what was written last; the in-flight flag is set exactly while one background check is outstanding |
| HealthRuns.AnsweredExactly | src/core/api-health-guard.ts:58-164 | in any reachable state a call is served at once if and only if the last check to end passed under 30 seconds ago, with the numbers of its report, and starts a refresh if and only if that is ten seconds ago and none is under way; a waiting caller is told what its check found, or is refused after five seconds |
| HealthRuns.ColdUntilSuccess | src/core/api-health-guard.ts:58-84 | once the cache is empty nothing is served from it until some check succeeds |
| HealthRuns.ColdAfterFailure | src/core/api-health-guard.ts:149-163 | after a failed check or a clearing in any reachable state, every call is cold until some check succeeds |
| PriceBreaker.PythPriceService.EndGetPrices | src/client/flash-client.ts:202-221 | after its await a success resets the breaker, a failure counts and from the third on opens it for a cooldown from its own start |
| PriceBreaker.BackOffBound | src/client/flash-client.ts:183-217 | the same bound in every run in which no fetch fails that began before the circuit, by then open, would let a call begin |
| PriceBreaker.SequentialCallsBackOff | src/client/flash-client.ts:183-217 | the bound holds of all calls made one after the other |
| PriceBreaker.OverlapBreaksTheBound | src/client/flash-client.ts:183-217 | for every n from 4 on, n calls at once that all fail break the bound: the n-th failure starts with the third |
| PriceBreaker.BreakerRemembers | src/client/flash-client.ts:138-142 | however calls overlap, the count is the current streak of failures in the order they ended, and the open-until time the start of the last plus its cooldown |
| PriceBreaker.NoFetchWhileOpen | src/client/flash-client.ts:183-188 | however calls overlap, a fetch begun after a streak of three or more waits out the cooldown of its last failure |
| PriceBreaker.FetchesExactly | src/client/flash-client.ts:183-188 | in any reachable state a call reaches the oracle if and only if something is missing in the cache and, after three or more failures in a row, 30, 60 or 120 seconds have passed since the last of them began |
| PriceBreaker.SpacedExactlyWithoutCrowding | src/client/flash-client.ts:183-217 | after a run whose calls did not crowd, a call made no earlier than the fetches in flight leaves the failures of every streak spaced by their cooldowns, however all fetches end and in whatever order, if and only if it does not crowd: a guard on the failure count and the number in flight |
| PriceBreaker.UncrowdedCallsBackOff | src/client/flash-client.ts:183-217 | in every run whose calls do not crowd, overlapping or not, the n-th failed attempt of a streak starts at least 30000 ms after the third for n = 4, and at least 90000 + 120000 (n - 5) ms for n at least 5 |
| PriceBreaker.CooldownsGrow | src/client/flash-client.ts:209-216 | cooldowns never shrink along a streak and lie between 30 and 120 seconds |
| PriceBreaker.CooldownsAre | src/client/flash-client.ts:209-216 | 30 seconds after the third failure, 60 after the fourth, 120 after each later one |
| PriceBreaker.SuccessForgets | src/client/flash-client.ts:204-206 | however calls overlap, the breaker depends only on the fetches that ended after the last success |
| Confirmations.FlashTerminal.Confirm | src/cli/terminal.ts:4095-4132 | issuing a question: the buffer answers it in simulation, and is discarded in live mode |
| Confirmations.FlashTerminal.OnLine | src/cli/terminal.ts:895-943 | a line answers the parked question, or is dropped, buffered, taken as a command, or starts an exit: a question at a live terminal, else the shutdown |
| Confirmations.SettledAtMostOnce | src/cli/terminal.ts:4113-4130 | under all interleavings of lines, questions and timers no question is settled twice |
| Confirmations.EveryYesWasTyped | src/cli/terminal.ts:4095-4132 | in every reachable state a true answer rests on a yes line typed after the question, or in simulation mode on one typed before it while the same command was running |
| Confirmations.SafeExactlyInLiveMode | src/cli/terminal.ts:4102-4111 | that every yes came after its question holds of all runs if and only if the mode is live |
| Confirmations.SimulationConfirmsBeforeTheQuestion | src/cli/terminal.ts:4103-4107 | in simulation there is a run in which a yes typed before the question settles it |
| Confirmations.NextLineAnswers | src/cli/terminal.ts:896-900 | in any reachable state with a parked question, the next line settles that question, true if and only if its lower-case form is yes or y |
| Confirmations.TypedAheadAnswers | src/cli/terminal.ts:4102-4111 | a question asked over a typed-ahead line is settled by it in simulation, true if and only if its lower-case form is yes or y, and in live mode drops it and waits |
| Confirmations.OtherLinesExactly | src/cli/terminal.ts:910-943 | a line nobody waits for: dropped when blank or over 4096 long, an exit or a question about it when its lower-case form is exit or quit, else buffered or taken as a command |
| Confirmations.DroppedQuestionOnlyTimesOut | src/cli/terminal.ts:4113-4130 | a question whose callback is gone is never answered in any continuation; only its own timer can still settle it, as no |
| Confirmations.QuestionsDoOverlap | src/cli/terminal.ts:923-934 | at a live terminal there is a run with two questions open, the earlier one's timer still to come |
| Confirmations.StaysParkedExactly | src/cli/terminal.ts:4095-4132 | in any reachable state the question listened to stays so if and only if the event is no line, no timer and no new question, but for one that a typed-ahead line answers in simulation |
| Confirmations.OverlappingTimerSilencesTheOther | src/cli/terminal.ts:4116-4119 | when an earlier question times out, the later one being listened to falls silent: from then on it can only time out |
| Confirmations.LeavesOnlyWhenToldTo | src/cli/terminal.ts:923-934 | at a live terminal an exit leads to shutdown if and only if a question about leaving was answered yes, by a line typed after it |
| MagicParser.ParseMagicOpenArgs | src/cli/terminal.ts:279-327 | the loop over cleaned words, with its number patterns, symbol set and alias table, and the number rules compute the specified parse |
| MagicParser.SideWords | src/cli/terminal.ts:280-282 | a word means long if and only if it is long or buy, short if and only if it is short or sell |
| MagicParser.NumberWords | src/cli/terminal.ts:285-294 | a word is a number if and only if it is digits, perhaps with one point between digits, and a leverage if and only if it is such a number followed by x |
| MagicParser.OtherWords | src/cli/terminal.ts:296-305 | any other word is the symbol its upper-case form names, else what its alias stands for, else ignored |
| MagicParser.SymbolIsRecognised | src/cli/terminal.ts:296-300 | a symbol of the pool is recognised in lower case unless that also names a side or begins with a digit |
| MagicParser.SortIsSorted | src/cli/terminal.ts:317 | the numbers are put in ascending order and stay the same numbers |
| MagicParser.OrderFree | src/cli/terminal.ts:279-327 | words that do not disagree mean the same trade, or the same refusal, in every order |
| MagicParser.OrderFreeExactlyWhenAgreeing | src/cli/terminal.ts:279-327 | words that spell out a trade mean it in every order if and only if no two words of one kind disagree |
| MagicParser.SomeOrderParsesExactlyWhenSpellable | src/cli/terminal.ts:279-327 | some order of the words is understood if and only if they contain a side, a symbol and usable numbers, a condition on the words alone |
| MagicParser.OrderFreeExactlyWhen | src/cli/terminal.ts:279-327 | for all words, every order means the same if and only if no two of one kind disagree or no order is understood |
| MagicParser.RoundTrip | src/cli/terminal.ts:279-327 | a trade written as side, symbol, number and Nx in any order among any ignored words parses back to itself |
| MagicParser.BareNumbersRoundTrip | src/cli/terminal.ts:309-321 | with two bare numbers the smaller is the leverage in every order, so the trade survives exactly when its leverage is at most its collateral |
| MagicParser.WordsRoundTrip | src/cli/terminal.ts:279-307 | from words: long or buy, short or sell for the side, a symbol or alias, a number and a number with x, in any order among ignored words, parse to exactly that trade |
| MagicParser.NumeralIsRead | src/cli/terminal.ts:291-294 | a whole number written the usual way is read as that number |
| MagicParser.MovingThePoint | src/cli/terminal.ts:285-294 | moving the point one digit to the right multiplies the number read by ten, down to no point at all |

## Left out

- Floating-point rounding: amounts are exact reals, so the tests for NaN and infinity have no counterpart.
- Network and chain: price refresh, fee rates, slippage and leverage tables, sending and signing appear only as inputs; the price table after a refresh is part of an operation's input.
- Market names arrive in upper case, and time stamps, log lines and transaction signatures of the paper account are not recorded.
- The leverage limit is one number: the client's own limit and the one of trade validation both come from the same table; the fallback limit of 100 used before that table is registered is not modelled.
- setTpSl and removeTpSl answer success false for a missing position; the model calls this the error NoPosition.
- Interleaved splits operations at their awaits and adds some suspension points (before adding collateral, at each turn of a sweep); it has every behaviour of the client and a few more. It works on values with object identities; update in place is what SimClient covers.
- The sweep's own price refresh and the positions view that follows it are not modelled.
- The magic client's rate limit, signing audit and quotes are not modelled; increase and decrease appear as calls that take the lock and use no cache.
- MagicTrades.GuardHolds: two sends after a failed one are only ordered, because the code records nothing on failure.
- HealthRuns uses one clock reading per step where the source reads the clock twice in a row.
- PriceBreaker: the price cache with its 5-second lookup and eviction, the tests on oracle prices and the retries inside one fetch are not modelled; whether a call finds everything cached is an input.
- Confirmations: the sanitised form of a line is an input beside the raw line; whether a command's own code still runs is reduced to the flag it sets; other ways to shut down than typing exit are not modelled.
- MagicParser.ParseMagicOpenArgs: words arrive in lower case, cleaned and split; the noise-word patterns and the splitting before the loop are not modelled, nor the numbers too long to be finite.
- EditDistance works on Dafny characters, which are code points; JavaScript counts UTF-16 code units, so distances and lengths differ on characters outside the basic plane.
- Letters changes the case of a to z only, which decides yes, y, exit, quit and the pool symbols; other scripts keep their characters.
- Fuzzy correction of whole sentences, prefix suggestions and the regular-expression parsers are not modelled.
