# A verified model of the dashboard's protocols and arithmetic

The dashboard is a single-page application that decrypts a portfolio, pulls prices from rate-limited
providers, keeps them in local storage, plans rebalances and draws charts.  This project models the
parts of it in which state, arithmetic or several actors meet, and proves what those parts are for.

Code that works by changing things in place is written as classes, methods and loops; each method is
proved to compute a function of its inputs or of the old state, and what the program promises is then
proved about those functions, over all inputs, all runs or all reachable states.

| files | what they model |
|---|---|
| `RefreshRounds`, `RefreshSafety`, `LockSafety`, `RefreshTimes` | asynchronous refresh rounds that share flags and are superseded at any await; safety over every interleaving, and the waiting times |
| `LoopSafety`, `RefreshRuns` | what keeps the auto-refresh loop going, exactly what loses it, and runs that reach the protocol's failures |
| `Coverage`, `CoverageCounts` | the lists a round moves its symbols between, the coverage buckets counted from them, and what they count |
| `Allocation`, `AllocationProofs`, `AllocationShares`, `RebalanceProofs`, `SellingProofs` | the rebalancing planner: conservation of cash, optimality and who gets what, end to end |
| `CategoryWeights`, `WeightRounding` | category weights spread over funds, scaling to 100 and rounding to one decimal |
| `CloseResolver`, `CloseProofs`, `CloseVerdicts`, `CloseHistory` | the two-provider session-close resolver, in batches and over histories of probes |
| `CreditLedger`, `CreditFigures`, `CreditClocks` | the API-credit log, pruned on every write, against the log that never was; the figures read off it; the clocks that are safe |
| `QuoteCache` | priming the quote cache as a last-writer-wins register keyed by price instant |
| `SlidingWindow` | the per-isolate hourly limiter and its `Retry-After` (section 10.2.3 of RFC 9110) |
| `ChartSessions`, `ChartProofs`, `ChartPaths`, `NiceAxis` | collapsed-session layout, the two run-splitting loops, the value axis |
| `AutoLock` | the idle auto-lock and its timers, which may freeze while the page is hidden |
| `Requirements` | the launcher's reading, printing and checking of version bounds |
| `Prelude`, `Sums`, `Rounding` | shared shapes, sums over key lists, decimal roundings |

## What the code does and does not promise

Where a promise fails, the model follows the code and says exactly when it holds.

- The comment at `web/src/app.ts:6469-6471` says a round clears a promotion left over from an earlier
  one.  Only a manual round does; `StalePromotionIsInherited` and `StalePromotionReachable` show an
  automatic round that inherits one, and `PromotedOnRecord` says which rounds finish as manual ones.
- The auto-refresh loop can be lost.  A stretch drops it exactly if it is a hide that the listener
  hears or the failure of the last thing that carried the loop, as long as no unlock has overtaken a
  round or another unlock (`WhatLosesTheLoop`, `LoopSurvives`).  Showing the page, or the return of the
  network link, brings it back exactly if the page is visible, the listener is the live session's and
  no other wake-up ran within the last five seconds (`WakeRevives`).  The comment at
  `web/src/app.ts:6950-6951` says that such a wake-up is covered by the pull already in flight; it is
  not when a hide has aborted that pull, and the page then stays visible with no tick pending
  (`ShownTooSoon`).  An unlock that does overtake breaks the loop in two further ways: the overtaken
  round keeps the unlock from leaving a tick unless the book is settled or the round stale
  (`UnlockTailLeaves`) and leaves none itself (`OvertakenRoundLeavesNoTick`, `LoopCanDie`), and an
  overtaken unlock that is over last puts the tick and the listener of its own, older session in place
  of the live ones, after which hiding or showing the page does nothing (`OldUnlockDeafens`,
  `LoopCanGoDeaf`; `web/src/app.ts:4077`, `web/src/app.ts:4192`).
- No weight is rounded below zero up to 46 funds; from 47 on some weights are (`NegativeFrom47`).
- A plan that may sell adds up to its cash exactly when what the weights promise beyond 100 is covered
  by the cancelled purchases and by what whole-share rounding leaves unspent, a cut sale counting as
  negative (`SellsBookExactly`); so a whole-share plan can overspend (`SellsCanOverspend`), by at most
  one share of each fund sold (`OverspendBound`).
- With no holding worth less than nothing, category weights are lost exactly when a weighted category
  repeats a fund that counts: any repeated fund when split evenly, one that is worth something when
  split by value (`RepeatsLoseWeight`).
  Nothing in the function excludes repeats; `web/src/ui.ts:4699-4720`, its one caller, passes on the
  member list of a category.
- While the primary lags behind the secondary, or answers nothing, every probe counts as progress and
  no close is ever accepted (`LaggingPrimaryNeverSettles`).
- A backup fill of a symbol that was served fresh stays in both lists: the progress total and the
  coverage total rise by the number of such fills (`RoundKeepsPartition`, `RoundAddsUp`).
- A refund can outlive the window of its spend.  A windowed figure is never below minus the balance
  carried into the window (`RefundsAreCarriedIn`, `FiguresStayAbove`), and a refund can take it below
  zero exactly when the log that is left carries something in (`WindowedSumsCanBeNegative`).
- A run is safe from refunding more than was spent, for all amounts and any release that follows, if
  and only if no refund in it is stamped before a spend ahead of it (`SafeClocksExactly`), which every
  clock that never runs backwards meets.  Any step back, however small, can break it: credits are
  refunded twice exactly if a later release still finds the spend in the log and no longer its refund
  (`BackwardClockRefundsTwice`).  For given amounts the exact condition is that pruning has not dropped
  more refunds than spends, or leaves nothing outstanding (`SafeExactlyWhenCovered`).
- Entries without a price time make priming depend on the order (`UnstampedIsOrderDependent`).
- `Retry-After` is a promise to the next caller only (`WaitingMayNotBeEnough`): a call is granted exactly
  when fewer than the cap were granted in the hour up to it (`GrantedExactlyWhenRoom`).  A configured
  reserve between zero and one gives a cap of zero (`ReserveIsUsable`).
- The open-market coverage buckets add up to the total exactly when no more fetched symbols came
  without a price than held ones are idle (`BucketsAddUp`).
- Printed version bounds are read back exactly when there is a bound to print (`PrintedBoundsReadBack`).

## Model

| member | source | states |
|---|---|---|
| RefreshRounds.App.AbortRound | web/src/app.ts:6976-6990 | an abort with a round in flight moves the generation on and clears the three flags, and is a no-op otherwise; says whether it aborted |
| RefreshRounds.App.ReleaseOwned | web/src/app.ts:6462-6468 | the flags are released only by the holder of the current generation; nothing else changes |
| RefreshRounds.App.ScheduledRefresh | web/src/app.ts:6366-6394 | the first stretch of a round up to the stale takeover, on the whole state: stop, defer, drop or take over |
| RefreshRounds.App.TakeTurn | web/src/app.ts:6410-6450 | with no round in flight: heartbeat only when settled, cache-only repaint when offline, else a round |
| RefreshRounds.App.TakeOwnership | web/src/app.ts:6450-6480 | ownership takes the flags and a new generation; only a manual round drops a stale promotion |
| RefreshRounds.App.ResumeTask | web/src/app.ts:6478-6657 | any suspended function, resumed after its await, moves the shared state as its own next stretch does |
| RefreshRounds.App.ContinueRound | web/src/app.ts:6478-6617 | a round resumed before its pricing ends: retired and released if superseded, else moved to its next await |
| RefreshRounds.App.ContinuePaint | web/src/app.ts:4037-4130 | a cache-only paint resumed; when it returns, the rest of the unlock runs without looking at the session again |
| RefreshRounds.App.EndRound | web/src/app.ts:6646-6664 | the end of a round: release in any case, a superseded or empty round arms nothing, a complete one re-arms and records its promotion |
| RefreshRounds.App.TimerFires | web/src/app.ts:6993-6996 | the tick clears its timer and enters the round for the session it was armed for |
| RefreshRounds.App.Tap | web/src/app.ts:6092-6190 | a tap is dropped by the cooldown, promotes the automatic round in flight, or begins a manual round |
| RefreshRounds.App.Shown | web/src/app.ts:6953-6964 | a wake-up enters an automatic round only for the live listener on a visible page and only if none ran within five seconds, and is stamped then |
| RefreshRounds.App.Hidden | web/src/app.ts:7010-7063 | hiding aborts the round and clears the timer, unless the listener belongs to an older session |
| RefreshRounds.App.LockSession | web/src/app.ts:8541-8562 | locking aborts, moves to a new session and clears timer, listener, flags and promotion |
| RefreshRounds.App.Unlocked | web/src/app.ts:4037-4130 | unlocking moves to a new session and begins its cache-only paint, whatever is still in flight |
| RefreshSafety.InvStep | web/src/app.ts:6356-6897 | every stretch of every function keeps the ownership invariant |
| RefreshSafety.OneOwner | web/src/app.ts:6378-6468 | in every run `refreshing` is set exactly when an unfinished round holds the current generation; it is the only one, and kind and start shown are its own |
| RefreshSafety.OldSessionsNeverPaint | web/src/app.ts:4918-5552 | in every run everything rendered, and every load error shown, came from a pass of the session then live |
| RefreshSafety.SupersededIsInert | web/src/app.ts:6459-6468 | resuming a superseded round arms no timer, completes nothing, disturbs no other task and changes no flag of a newer round |
| RefreshSafety.OnlyCompletionIsRecorded | web/src/app.ts:6649-6657 | no other stretch, of a superseded or empty round or of anything else, records a completion |
| RefreshSafety.CompletionIsUninterrupted | web/src/app.ts:6459-6468 | a round that completes owned the flags at every moment since it began: no lock, hide, takeover or other round came between |
| RefreshSafety.PromotionStep | web/src/app.ts:6092-6190 | while one round keeps the state only a promoting tap raises the promotion flag, and nothing lowers it |
| RefreshSafety.PromotionExactly | web/src/app.ts:6660-6664 | over any stretch of a completing round's life, the flag is up exactly if it was up before or a tap promoted the round meanwhile |
| RefreshSafety.PromotedOnRecord | web/src/app.ts:6660-6665 | a round finishes as a manual one exactly if a tap promoted it or it found the flag up |
| RefreshSafety.StalePromotionIsInherited | web/src/app.ts:6469-6471 | after a hide an automatic round starts with the aborted round's promotion, a manual one without |
| RefreshRuns.StalePromotionReachable | web/src/app.ts:6469-6471 | a run from the first unlock in which an automatic round, untapped from its beginning on, completes as a promoted one |
| LoopSafety.WhatLosesTheLoop | web/src/app.ts:6356-6897 | each stretch from a clean state leaves a clean one if and only if it is not an overtaking unlock, and drops a live loop if and only if it is a heard hide or the failure of its last carrier |
| LoopSafety.LoopSurvives | web/src/app.ts:6356-6897 | in every run without overtaking unlocks, from any moment at which the loop is on, the unlocked session has a pending tick, a round of its own or an unlock under way until a stretch drops it |
| LoopSafety.WakeRevives | web/src/app.ts:6953-6964 | at any moment of such a run, a shown page or returned link leaves the loop carried if and only if it was already, or the page is visible, the listener live and no wake-up ran within five seconds |
| RefreshRuns.ShownTooSoon | web/src/app.ts:6953-6964 | a run without overtaking unlocks in which a visible page with a live listener, shown within five seconds of its last wake-up, stays idle with no tick pending |
| LoopSafety.UnlockTailLeaves | web/src/app.ts:4175-4200 | with no tick pending, the end of the live unlock leaves a tick or a live round if and only if the book is settled with no quick pull due, or nothing, the live session's round or a stale one is in flight |
| LoopSafety.OvertakenRoundLeavesNoTick | web/src/app.ts:6378-6386 | when it leaves neither, a round of an older session that is at an await before its pricing arms nothing at that await either |
| LoopSafety.OldUnlockDeafens | web/src/app.ts:4077-4192 | from every state in which an older unlock is over last on a settled book, tick and listener are stale, the tick stops and no hide or wake-up acts |
| RefreshRuns.FirstUnlockTurnsLoopOn | web/src/app.ts:4037-4192 | a first unlock on a settled book reaches an idle session whose loop is on |
| RefreshRuns.LoopCanDie | web/src/app.ts:6378-6386 | a run without hide, lock or failure, in which an unlock overtakes a round, ends unlocked and idle with no tick pending |
| RefreshRuns.LoopCanGoDeaf | web/src/app.ts:4077-4192 | a run of two unlocks without hide, lock, failure or round ends so too, with the listener of the older session |
| LockSafety.LockIsQuiet | web/src/app.ts:8541-8562 | a lock leaves no round in flight, no flag, promotion, timer or listener, and everything suspended belongs to an ended session |
| LockSafety.LockSilences | web/src/app.ts:8541-8562 | after any run and a lock, whatever suspended functions, timers and old listeners do, no round begins and nothing is rendered or recorded before the next unlock or tap |
| RefreshTimes.WatchdogWaits | web/src/refresh-policy.ts:198-217 | with a round in flight, an entry for the live session that is not put off leaves the whole state alone if and only if the round is younger than the interval, or than 90 seconds without one |
| RefreshTimes.OwnerIsLeftAlone | web/src/app.ts:6378-6394 | no single stretch takes the flags from a round except a hide, a lock, its own and an entry after that wait |
| RefreshTimes.TakenOverOnlyWhenOld | web/src/app.ts:6378-6394 | in every run, an owner keeps its round until one of those comes, so an entry takes over no younger round |
| RefreshTimes.TapCounts | web/src/app.ts:6092-6190 | a tap does nothing if and only if a manual round is in flight or the last counted tap is less than three seconds old, and promotes if and only if an automatic one is and it is not |
| RefreshTimes.TapStamps | web/src/app.ts:546-562 | only a tap that counts, at least three seconds after the last one, is stamped, and with its own time |
| RefreshTimes.WakeCounts | web/src/app.ts:6953-6964 | a wake-up does nothing if and only if the listener is not the live one, the page is hidden or the last is less than five seconds old; otherwise it is stamped now |
| RefreshTimes.EntryIsPutOff | web/src/app.ts:6366-6377 | an entry of a session that is over is ignored, an automatic one on a hidden page only re-arms |
| RefreshTimes.EntryComesTo | web/src/app.ts:6400-6480 | what any other entry comes to with nothing in flight: a tick only, a cache-only paint and a tick, or a round of its kind begun now, and when each |
| RefreshTimes.RoundMovesOn | web/src/app.ts:6478-6617 | which awaits a round makes before its pricing, and when: graphs only when due, foreign-exchange bars only when they alone are |
| RefreshTimes.PassMovesOn | web/src/app.ts:4918-5552 | a pass moves only forward through its awaits, skips none it cannot, makes the others exactly when called for and paints exactly at its end |
| RefreshTimes.PassBegins | web/src/app.ts:4918-5080 | a pass begins at the first await it needs, or nowhere without decrypted data |
| RefreshTimes.PassEnds | web/src/app.ts:4918-5552 | a pass ends by exception, empty or with a report exactly in the cases listed, and shows something exactly when it paints or meets a fatal answer in its own session |
| RefreshTimes.RoundEnds | web/src/app.ts:6646-6664 | when the end of a round drops the promotion, arms the next tick and releases the flags |
| RefreshTimes.UnlockBegins | web/src/app.ts:4037-4042 | an unlock moves to a new session and its paint, and takes flags, promotion, tick and listener as it finds them |
| RefreshTimes.UnlockInstalls | web/src/app.ts:4077 | the end of an unlock installs the listener of its own session, live or not, unless its paint threw |
| Coverage.Report.AbsorbTiingoFallback | web/src/app.ts:7410-7422 | backup fills leave deferred and failed and join fetched once each; the whole report is given |
| Coverage.Report.AbsorbSafetyNet | web/src/app.ts:7433-7454 | quoted fills join fetched, failures still deferred join failed, the rest stays deferred without repetition; returns the fills |
| Coverage.BackupDoubles | web/src/app.ts:7410-7422 | union is kept plus the fills, live never falls, and exactly the fills that were served fresh come to be counted twice |
| Coverage.BackupMoves | web/src/app.ts:7410-7422 | symbol by symbol: fills leave their lists for fetched, and no other symbol changes its list |
| Coverage.BackupKeepsPartition | web/src/app.ts:7410-7422 | so the four lists stay disjoint exactly if no fill was served fresh |
| Coverage.NetKeepsPartition | web/src/app.ts:7433-7454 | fills of deferred symbols keep the same symbols listed, double none of them and raise live by their number |
| Coverage.RoundKeepsPartition | web/src/app.ts:7410-7454 | both folds in the order of a round, on any backup fills: same union, live never lower, the total higher by the fills that were served fresh, a partition exactly if there are none |
| Coverage.BookCoverageReport | web/src/app.ts:8632-8642 | the widened report, symbol by symbol in book order |
| Coverage.BookIsCovered | web/src/app.ts:8632-8642 | afterwards every named book symbol is listed, no symbol is newly counted twice, and only the served-fresh list has changed |
| Coverage.BuildCoverageFacts | web/src/app.ts:8840-8948 | all eight counts over the four lists |
| Coverage.FactsAddUp | web/src/app.ts:8887-8931 | each listed symbol is counted once; live plus idle is held plus priceless; the other counts stay within theirs |
| Coverage.BucketsAddUp | web/src/app.ts:9008-9037 | live + updating + cached + missing is the market total if and only if priceless fetches do not outnumber idle holdings |
| Coverage.BookAddsUp | web/src/app.ts:8632-9037 | from lists to summary: with a price for each fetched symbol the buckets add up, and market plus NAV counts are the book plus the doubled symbols |
| Coverage.RoundAddsUp | web/src/app.ts:7410-9037 | the same from the start of the folds: the book plus the fills that had been served fresh |
| CoverageCounts.CountsMean | web/src/app.ts:8888-8931 | every count is the number of listed positions with its property, spelled out on lists, quotes and clock |
| CoverageCounts.HeldSplits | web/src/app.ts:8888-8931 | with a price for each fetched symbol, market positions split into live, updating, cached and unpriced ones |
| CoverageCounts.BucketsMean | web/src/app.ts:9008-9037 | and the four buckets count just those: deferred idle holdings read as updating, other idle ones as cached |
| Allocation.BuyOnlyGaps | web/src/allocation.ts:122-174 | the grouping and sharing loops give every buyable fund its share of its own bucket's shortfall, with or without categories |
| Allocation.PlanBuyOnly | web/src/allocation.ts:177-214 | the loops compute the plan the theorems below are about, in all three branches |
| Allocation.PlanWithSells | web/src/allocation.ts:217-229 | every fund moves to its target except cancelled purchases |
| Allocation.BookRows | web/src/allocation.ts:290-318 | one row per fund, whole shares truncated toward zero, with the running total of what is booked |
| Allocation.PlanRebalance | web/src/allocation.ts:247-323 | rows and residual, or the error for negative cash or for weights off 100 by more than 0.01 |
| Allocation.SoloGap | web/src/allocation.ts:131-134 | a fund alone in its bucket asks for exactly its own shortfall |
| AllocationProofs.GapsFillBucket | web/src/allocation.ts:152-172 | the gaps within a bucket add up to the bucket's shortfall, or to nothing if it has no buyable fund |
| AllocationProofs.BucketsPartition | web/src/allocation.ts:136-153 | the purchases of all buckets together are all purchases |
| AllocationProofs.BuyOnlySpendsTheCash | web/src/allocation.ts:186-213 | the plan is non-negative, skips excluded funds and spends exactly the cash, or nothing if there is no fund to buy |
| AllocationProofs.BuyOnlyIsOptimal | web/src/allocation.ts:122-214 | no allowed way to spend the cash brings the buckets closer to their targets in total |
| AllocationShares.TargetsArePercentages | web/src/allocation.ts:271-284 | a target is its weight in percent of everything held and the cash |
| AllocationShares.SharedBuckets | web/src/allocation.ts:136-150 | two funds share a bucket if and only if they are given the same category with a name |
| AllocationShares.GapsFollowTargets | web/src/allocation.ts:152-172 | within a bucket, the gaps of two buyable funds are in the ratio of their targets, or equal if these come to nothing |
| AllocationShares.SpareCashFollowsWeights | web/src/allocation.ts:193-210 | cash beyond the gaps goes to two buyable funds in the ratio of their weights, or evenly if these come to nothing, on top of their gaps |
| AllocationShares.MatchingCashFillsGaps | web/src/allocation.ts:211-213 | cash that just meets the gaps fills each of them |
| AllocationShares.ScarceCashFollowsGaps | web/src/allocation.ts:191-193 | cash short of the gaps goes to two buyable funds in the ratio of their gaps |
| AllocationShares.SellsReachEachTarget | web/src/allocation.ts:217-229 | with sells every fund ends at its target, or where it was if that takes a cancelled purchase |
| AllocationShares.RowSharesAndValue | web/src/allocation.ts:290-318 | amount and shares of a row: rounded shares of the whole amount, or whole shares that cut it toward zero by less than one price |
| AllocationShares.RowWithoutPrice | web/src/allocation.ts:290-318 | a fund without a usable price gets no shares |
| AllocationShares.PlanningFails | web/src/allocation.ts:262-269 | which error comes exactly when: negative cash first, then weights off 100 by more than 0.01 |
| RebalanceProofs.BookIsSane | web/src/allocation.ts:271-284 | non-negative weights suffice for those theorems, whatever is held |
| RebalanceProofs.RebalanceConservesCash | web/src/allocation.ts:286-322 | buy-only, from arguments to rows: rows plus residual are the cash without the clamp acting, no row sells or buys an excluded fund |
| RebalanceProofs.WholeShares | web/src/allocation.ts:300-308 | whole shares cost no more than was set aside and leave less than one price |
| RebalanceProofs.ResidualBound | web/src/allocation.ts:290-322 | the residual is zero with fractions or without priced funds, else below the sum of the buyable funds' prices |
| RebalanceProofs.SellsCanOverspend | web/src/allocation.ts:300-321 | a two-fund plan with no cash books purchases beyond its sales and reports a residual of zero |
| SellingProofs.SellsBookExactly | web/src/allocation.ts:217-322 | what any plan with sells books, exactly, and the condition on the arguments under which rows and residual are the cash |
| SellingProofs.SellsConserveCash | web/src/allocation.ts:217-322 | without whole-share rounding that condition is on the weights and the cancelled purchases alone |
| SellingProofs.NoExcess | web/src/allocation.ts:265-284 | weights of at most 100 in total never ask for more than holdings and cash |
| SellingProofs.WholeSale | web/src/allocation.ts:300-308 | a sale cut to whole shares falls short by less than one price |
| SellingProofs.OverspendBound | web/src/allocation.ts:286-322 | with whole shares the overspend is at most one price of each fund sold |
| CategoryWeights.CategoryMemberShares | web/src/allocation.ts:45-64 | the shares by value, or even ones when the members are worth nothing, in order |
| CategoryWeights.ExpandCategoryWeights | web/src/allocation.ts:72-91 | the table of fund weights after all categories, or the first category whose slice would vanish |
| CategoryWeights.FailsOnlyForEmptyCategories | web/src/allocation.ts:78-83 | it fails exactly if some positive category has no selected fund |
| CategoryWeights.FundsFollowValues | web/src/allocation.ts:45-91 | two funds of one category get weights in the ratio of their values when split by value and worth something, and equal ones otherwise |
| CategoryWeights.ExpansionConserves | web/src/allocation.ts:72-91 | the fund weights add up to the positive category weights, even for funds in several categories |
| CategoryWeights.CategoriesKeepTheirSlices | web/src/allocation.ts:66-91 | with disjoint categories, the funds of each carry exactly what it hands out, whatever the others do |
| CategoryWeights.CategoriesKeepTheirWeight | web/src/allocation.ts:66-91 | which is its whole weight if it lists each fund once |
| CategoryWeights.ExpansionExactly | web/src/allocation.ts:72-91 | on any member lists, the weight lost is each category's weight times what the shares of its distinct funds do not hand out |
| CategoryWeights.HandsOutAll | web/src/allocation.ts:45-64 | for holdings worth nothing or more, a category hands out at most its weight, and all of it exactly when its repeated entries are worth nothing in the split |
| CategoryWeights.RepeatsLoseWeight | web/src/allocation.ts:72-91 | for holdings worth nothing or more, no weight is lost if and only if that holds of every weighted category |
| WeightRounding.ScaleTo100 | web/src/allocation.ts:326-335 | the loops compute the scaled table; empty if nothing is positive |
| WeightRounding.RoundTo100 | web/src/allocation.ts:338-355 | the loops compute the rounded table with the residual in the first of the largest entries |
| WeightRounding.ScalingSumsTo100 | web/src/allocation.ts:326-335 | exactly the positive keys in order, positive, summing to exactly 100 |
| WeightRounding.ScalingKeepsProportions | web/src/allocation.ts:326-335 | every positive entry becomes its percentage of their sum |
| WeightRounding.ScalingKeepsRatios | web/src/allocation.ts:326-335 | so any two positive entries keep their ratio |
| WeightRounding.RoundingSumsTo100 | web/src/allocation.ts:338-355 | exactly 100 after rounding, and one entry at most moved beyond its rounding |
| WeightRounding.RoundingErrors | web/src/allocation.ts:338-355 | every entry within 0.05, the absorbing one within 0.05 for each other entry |
| WeightRounding.NoNegativeUpTo46 | web/src/allocation.ts:338-355 | no negative weight with up to 46 entries |
| WeightRounding.NegativeFrom47 | web/src/allocation.ts:338-355 | for every larger number of entries some weights give a negative one |
| WeightRounding.RoundedScaledWeights | web/src/allocation.ts:326-355 | both steps together, on any weights with a positive one |
| WeightRounding.RoundedPercentages | web/src/allocation.ts:326-355 | the same errors measured against the weights: every entry is within 0.05 of its percentage of the positive ones, the absorbing one within 0.05 for each other |
| WeightRounding.BiggestIsFirst | web/src/allocation.ts:343-353 | the absorbing entry is the first of the largest |
| WeightRounding.RoundedToOneDecimal | web/src/allocation.ts:338-355 | every rounded weight, the absorbing one included, has at most one decimal |
| Rounding.HalfEvenNearest | web/src/allocation.ts:341 | rounding is to a nearest integer and ties go to the even one |
| CloseResolver.FirstPass | web/src/close-completeness.ts:231-270 | the first loop books what the primary decides and collects the other symbols in order |
| CloseResolver.SecondPass | web/src/close-completeness.ts:280-367 | the second loop books the escalated symbols after them |
| CloseResolver.ResolveCloseCompleteness | web/src/close-completeness.ts:198-370 | result, secondary request, log and back-off calls of a whole batch |
| CloseProofs.BatchIsPerSymbol | web/src/close-completeness.ts:198-370 | a batch gives each of its distinct symbols what resolving it alone gives |
| CloseProofs.BatchTouchesNoOther | web/src/close-completeness.ts:216-221 | and says nothing of any other symbol |
| CloseProofs.BatchBackoffIsPerSymbol | web/src/close-completeness.ts:242-360 | nor does batching change a symbol's back-off calls |
| CloseProofs.OneVerdictEach | web/src/close-completeness.ts:231-367 | one verdict and exactly one of probe and clearing per symbol; the secondary is asked once for each escalated one |
| CloseProofs.EscalatesMeans | web/src/close-completeness.ts:235-269 | a symbol escalates exactly if no primary bar reaches the close or passes the remembered tip |
| CloseVerdicts.VerdictsFollowBars | web/src/close-completeness.ts:231-367 | each of the four verdicts, if and only if, from the bars of both legs and the remembered tip; with the bars merged and the probe left |
| CloseVerdicts.BatchFollowsVerdicts | web/src/close-completeness.ts:231-367 | a batch gives each of its symbols the bars, probe, clearing, reported bars and back-off calls of that verdict |
| CloseVerdicts.LogFollowsVerdicts | web/src/close-completeness.ts:231-367 | and logs its outcome |
| CloseHistory.GateOpens | web/src/close-completeness.ts:57-79 | the gate is open if and only if there is no probe, a full hour has begun since an unsettled agreement, or ten minutes have passed since any other |
| CloseHistory.SettledStays | web/src/timeseries-store.ts:552-566 | merging the probe of a later verdict leaves a settled symbol settled, unless its close was reached |
| CloseHistory.VisitsAreTrue | web/src/close-completeness.ts:231-367 | every visit recorded as an agreement saw two legs short of the close within the tolerance of each other, every one that reached it a bar there |
| CloseHistory.InvProbed | web/src/close-completeness.ts:57-79 | every gated probe keeps the spacing of visits and ties the stored probe to the visits made |
| CloseHistory.SettledMeansThreeAgreements | web/src/close-completeness.ts:316-359 | settled exactly after three agreements in a row, in three clock hours, first and third more than an hour apart, each seen in bars of both providers within the tolerance |
| CloseHistory.AtMostSixPerHour | web/src/close-completeness.ts:69-79 | no clock hour sees more than six probes of a symbol, whatever the history |
| CloseHistory.LaggingPrimaryNeverSettles | web/src/close-completeness.ts:299-315 | while the primary is silent or behind by more than the tolerance, no number of probes settles the symbol |
| CreditLedger.CreditStore.RecordCredits | web/src/cache.ts:606-615 | the pruned log grows by the spend, and the unpruned one with it; nothing for a count of zero or less |
| CreditLedger.CreditStore.ReleaseCredits | web/src/cache.ts:630-650 | likewise for the clamped refund, and nothing at all when nothing is outstanding |
| CreditLedger.PruningIsInvisible | web/src/cache.ts:595-615 | every later reading of the pruned log is that reading of the complete history |
| CreditLedger.ReadMeans | web/src/cache.ts:595-602 | a reading keeps exactly the entries younger than the span |
| CreditLedger.BudgetsSurvivePruning | web/src/cache.ts:653-703 | today's, this hour's and any window's figure on the pruned log are those of the complete history |
| CreditLedger.RefundsNeverExceedSpends | web/src/cache.ts:630-650 | with a clock that never runs back, every prefix of the complete history has a non-negative sum |
| CreditFigures.RefundsAreCarriedIn | web/src/cache.ts:630-703 | in every clocked run and window, refunds exceed spends by at most the balance carried in, which is never negative |
| CreditFigures.WindowsBegin | web/src/cache.ts:664-692 | hour and day begin at the multiple of their length that the instant lies less than one length after |
| CreditFigures.FiguresStayAbove | web/src/cache.ts:653-703 | the three figures as shown are never below minus that balance |
| CreditFigures.WindowedSumsCanBeNegative | web/src/cache.ts:630-703 | after any run, some refund takes a non-negative figure below zero if and only if the kept log carries something into the window |
| CreditFigures.SafeExactlyWhenCovered | web/src/cache.ts:630-650 | on any clock, no release refunds more than was ever spent if and only if pruning has not dropped more refunds than spends, or nothing is outstanding |
| CreditFigures.CoveredRunsAreSafe | web/src/cache.ts:595-650 | a run on any clock that is covered at its releases never refunds more than it spent |
| CreditFigures.ClockedIsCovered | web/src/cache.ts:595-650 | a clock that never runs back covers every release |
| CreditClocks.InStepIsSafe | web/src/cache.ts:595-650 | on any amounts, no run whose refunds are stamped no earlier than the spends ahead of them, and no release after it, refunds more than was spent |
| CreditClocks.SafeClocksExactly | web/src/cache.ts:595-650 | that condition on kinds and times alone is exact: without it some amounts and some later release refund more than was spent |
| CreditClocks.BackwardClockRefundsTwice | web/src/cache.ts:595-650 | credits spent, refunded and released at any three instants are refunded twice exactly if the last reading still keeps the spend and no longer the refund |
| QuoteCache.QuoteStore.FindLatest | web/src/cache.ts:333-339 | the first of the newest bars |
| QuoteCache.QuoteStore.PrimeQuotesFromBars | web/src/cache.ts:172-216 | the file after a batch of bars, and the symbols reported as primed in order |
| QuoteCache.QuoteStore.PrimeQuotesFromExport | web/src/cache.ts:305-330 | the file after a batch of seeds, and the symbols reported as primed in order |
| QuoteCache.BarLeaves | web/src/cache.ts:186-212 | what a newer bar leaves of its symbol, field by field, for a NAV fund and for any other, and that no other symbol changes |
| QuoteCache.SameBarTouches | web/src/cache.ts:186-197 | a bar struck at the instant held only moves the fetch time, never back |
| QuoteCache.BarsPassedOver | web/src/cache.ts:180-205 | bars prime nothing if and only if there are none, none is as recent as the entry, the entry was fetched since, or no currency is known |
| QuoteCache.SeedLeaves | web/src/cache.ts:311-327 | what a newer seed leaves of its symbol, field by field, and that no other symbol changes |
| QuoteCache.SeedPassedOver | web/src/cache.ts:311-317 | a seed primes nothing if and only if it names no symbol or the instant held is as recent |
| QuoteCache.LatestIsFirstNewest | web/src/cache.ts:333-339 | the bar taken is the first of the newest |
| QuoteCache.OfferMovesForward | web/src/cache.ts:186-197 | no offer ever moves a stamped entry's price instant back |
| QuoteCache.RegisterHoldsLatest | web/src/cache.ts:172-339 | after any offers, the instant held is the maximum held or offered and the price is one struck then |
| QuoteCache.PrimingIsOrderIndependent | web/src/cache.ts:172-339 | any two orders of the same offers leave the same price and instant |
| QuoteCache.UnstampedIsOrderDependent | web/src/cache.ts:186-197 | for every entry without a price time two offers whose order matters |
| SlidingWindow.Limiter.ReserveTiingoSlot | web/proxy/worker.js:158-169 | the queue and answer after a call; no wait is given when the cap is zero and the queue empty |
| SlidingWindow.QueueIsRecentGrants | web/proxy/worker.js:102-108 | after any run the queue is the grants of the last hour, in order |
| SlidingWindow.AtMostCapPerHour | web/proxy/worker.js:147-169 | no window of an hour, wherever it ends, holds more than `cap` grants |
| SlidingWindow.RefusedUntilExpiry | web/proxy/worker.js:158-169 | after a refusal all calls before the oldest grant expires are refused and leave the queue alone |
| SlidingWindow.RetryAfterIsRight | web/proxy/worker.js:163-166 | the next call is granted exactly from that expiry on; the announced seconds are enough, and one less is not |
| SlidingWindow.GrantedExactlyWhenRoom | web/proxy/worker.js:158-169 | in every run a call is granted if and only if fewer than `cap` grants fell in the hour up to it |
| SlidingWindow.WaitingMayNotBeEnough | web/proxy/worker.js:163-166 | another caller may take the slot first |
| SlidingWindow.ReserveIsUsable | web/proxy/worker.js:172-175 | the resolved cap is at least one except for configured fractions below one |
| SlidingWindow.ReserveMeans | web/proxy/worker.js:172-175 | it is the configured positive value rounded down, and forty otherwise |
| ChartSessions.CollectGroups | web/src/chart.ts:231-240 | groups of consecutive points of one day, or nothing if a label has no date |
| ChartSessions.GroupsAreDayRuns | web/src/chart.ts:231-238 | the groups are exactly the maximal same-day runs, in order, covering every point |
| ChartSessions.FindSpan | web/src/chart.ts:245-253 | the earliest and latest time of day over all labels that parse |
| ChartSessions.SessionFractions | web/src/chart.ts:227-288 | a layout for two or more dated labels and only then; every point, separator and band placed |
| ChartProofs.BandsHoldTheirPoints | web/src/chart.ts:264-284 | the points of the k-th of g bands lie in [k/g, (k+1)/g] and the last band ends at 1 |
| ChartProofs.SpanIsAttained | web/src/chart.ts:245-253 | the span runs from an earliest to a latest time of day that some labels have |
| ChartProofs.BandsAreEven | web/src/chart.ts:264-285 | band k begins at k/g, where its separator is, and is centred in its middle |
| ChartProofs.TimesArePlaced | web/src/chart.ts:258-282 | a timed point sits in its band as far as its time lies between the earliest and the latest, so those are at the ends of the band |
| ChartProofs.OthersAreSpaced | web/src/chart.ts:270-282 | any other sits evenly by its place in the day, a lone one in the middle |
| ChartProofs.BandsAreTheDays | web/src/chart.ts:230-285 | the bands of a layout are exactly the maximal same-day runs of its points, with one separator fewer |
| ChartProofs.SeparatorsSeparate | web/src/chart.ts:266-285 | every separator lies between all points of the days before it and all points of the days after it |
| ChartProofs.FractionsAscend | web/src/chart.ts:227-288 | for ascending instants positions never go back, within bands and across them |
| ChartProofs.EqualTimesAlign | web/src/chart.ts:258-263 | equal times of day on different days sit equally far into their bands |
| ChartPaths.RunsAreRuns | web/src/chart.ts:616-643 | the runs collected are runs of present values without a change of day, maximal and complete |
| ChartPaths.RunsAreUnique | web/src/chart.ts:616-702 | values and dates leave only one such list |
| ChartPaths.DayBreakMeans | web/src/chart.ts:632-638 | the day breaks exactly if both dates are there and differ in their first ten characters |
| ChartPaths.LinePath | web/src/chart.ts:616-643 | the pen-lifting loop draws one stroke per maximal run |
| ChartPaths.Segments | web/src/chart.ts:657-683 | the open-start loop collects the same runs |
| ChartPaths.AreaPathD | web/src/chart.ts:650-702 | one closed polygon per maximal run |
| ChartPaths.PathsAgree | web/src/chart.ts:616-702 | line and area draw the same maximal runs in the same order, on every input |
| NiceAxis.DecimalExponent | web/src/chart.ts:783 | the exponent e with 10^e <= v < 10^(e+1) |
| NiceAxis.ExponentIsUnique | web/src/chart.ts:783 | there is only one |
| NiceAxis.NiceAxisFor | web/src/chart.ts:760-774 | the axis for finite unequal bounds, and the fixed three-tick axis otherwise |
| NiceAxis.AxisIsNice | web/src/chart.ts:760-801 | it covers the data, steps by 1, 2, 5 or 10 times a power of ten, starts and ends on its bounds, with an interval count near the target |
| NiceAxis.StepMeans | web/src/chart.ts:781-801 | which step is taken for an interval, with the limits written out |
| NiceAxis.ThreeToSevenIntervals | web/src/chart.ts:760-774 | three to seven intervals for the default target |
| NiceAxis.LimitsAreReached | web/src/chart.ts:760-774 | both three and seven occur |
| AutoLock.Driver.InstallAutoLock | web/src/app.ts:4227-4271 | installing clears or arms the timers for the chosen window |
| AutoLock.Driver.OnActivity | web/src/app.ts:4235-4252 | only deliberate input on an unlocked page re-arms, at most once a second unless the warning is up |
| AutoLock.Driver.ScheduleAutoLockTimers | web/src/app.ts:4291-4301 | when the warning and the lock will come |
| AutoLock.Driver.CheckAutoLockOnReturn | web/src/app.ts:4309-4328 | on return the page locks or re-arms for what is left of the window |
| AutoLock.VisibleMeansActive | web/src/auto-lock.ts:36-45 | in every run, a visible unlocked session has been idle for less than the window |
| AutoLock.NoEarlyLock | web/src/app.ts:4235-4301 | in every run, no idle lock comes before the last interaction plus the window less the one-second throttle |
| AutoLock.InputCounts | web/src/auto-lock.ts:81-89 | on a visible unlocked page every key press and every click or change on a control is an interaction now; anything else leaves the state alone |
| AutoLock.InteractionRearms | web/src/app.ts:4235-4301 | such an interaction puts warning and lock off to a whole window from now |
| AutoLock.InteractionThrottled | web/src/app.ts:4250-4252 | unless the last that did is less than a second old and no warning is up; it then changes only its own time |
| AutoLock.InstallingArms | web/src/app.ts:4227-4234 | installing takes the minutes as a window from now, or none for zero or fewer |
| AutoLock.WarningLeads | web/src/app.ts:4291-4301 | a pending warning precedes its lock by at most 15 seconds and half the window |
| AutoLock.VisibleLockIsPunctual | web/src/app.ts:4291-4301 | on screen the page is locked exactly from the end of the window on, and the lock fires at that instant |
| Requirements.VersionTuple | run_dashboard.py:511-526 | the first three leading numbers of the dotted parts, zero where missing |
| Requirements.ParseRequirement | run_dashboard.py:432-457 | name, greatest floor and least ceiling of an entry, or nothing without a name |
| Requirements.VersionProblem | run_dashboard.py:490-500 | no complaint exactly if the package is installed within the bounds |
| Requirements.IntervalMeansEveryClause | run_dashboard.py:432-500 | a version lies within the folded bounds exactly if every recognised clause accepts it |
| Requirements.OperatorsMean | run_dashboard.py:449-456 | a ceiling for `<` and a floor for each of `>=`, `==` and `~=`, whatever spaces follow |
| Requirements.OneNumberReads | run_dashboard.py:511-526 | a single number stands for itself and two zeros |
| Requirements.TwoNumbersRead | run_dashboard.py:511-526 | two, separated by a dot or a hyphen, for those and one zero |
| Requirements.MarksAreIgnored | run_dashboard.py:511-526 | what is attached to the last number without a separator does not count |
| Requirements.MoreNumbersAreIgnored | run_dashboard.py:511-526 | nor does anything after the third number |
| Requirements.NamesAreNormal | run_dashboard.py:443 | names lose their upper case and underscores become hyphens |
| Requirements.VersionReadsBack | run_dashboard.py:481-526 | a printed version is read back as itself |
| Requirements.PrintedBoundsReadBack | run_dashboard.py:432-487 | a plain name with its printed bounds is read back as the same name and bounds, if and only if there is a bound |
| Requirements.ReprintIsStable | run_dashboard.py:432-487 | for every entry, what it was parsed to is parsed again from its printed form |

## Left out

- Rendering, toasts, storage failures, `fetch`, cryptography, service workers and installers: I/O or thin wrappers.
- Provider calls (`planPull`, `loadQuotes`, the backup and safety-net legs) are arbitrary answers; the resolver's fetchers answer per symbol.
- Exceptions inside a round other than `refreshPrices` throwing; delays and jitter of the next tick; prefetch and the cadence policy.
- The optional fingerprint enrolment inside an unlock: one more await, covered by the arbitrary delay before an unlock goes on after its paint.
- Whether the book is fully up to date, the queue holds forced pulls or a quick start-up pull is due are arbitrary answers, read afresh at each stretch.
- `holdsSettledClose`, market calendars and exchange days are parameters.
- The 40-digit precision of decimal.js and floating point: exact reals, with the explicit roundings written out.  `Math.log10` is the exact exponent.
- Coordinates: a path is a list of pen commands by point index, and the formatting of numbers and the y positions are not modelled.
- Parsing of ISO strings: a label is its day and its time of day, if it has them.
- `resolveFxCompleteness`, a wrapper that applies the resolver to one pair, and the Tiingo variant of the ledger, the same code under another key with a reset at midnight in New York.
- Malformed entries of the stored credit log, and stored quotes without a fetch time.
- Wording of messages, log levels, config clamps and label formatting.
- AutoLock.NoEarlyLock: a clock that runs backwards is not modelled, and the listeners of a page whose window is switched off are left in place.
- Requirements.VersionTuple: digits and letter case outside ASCII are not modelled, nor the interpreter's limit on the length of a number.
- Concurrent isolates of the proxy: each has its own log, and the model is of one.
