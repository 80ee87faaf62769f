# OpenTicker core, verified

A Dafny model of the state machines and transformations at the core of the OpenTicker
trading runtime, with proofs of what they are for. `dafny verify dfyconfig.toml` checks
everything.

| file | part of the system |
|---|---|
| `LaneRecovery.dfy`, `LaneFeeds.dfy` | confirmed-bar polling and the recovery protocol of a lane, against an arbitrary connector and journal, and what it feeds the indicators |
| `RuntimePolling.dfy`, `RuntimePolls.dfy` | polling as the service runs it, in separate plan, fetch and apply steps that interleave |
| `PollOutcomes.dfy` | what a poll comes to, read off its inputs |
| `AccountLedger.dfy`, `LedgerLimits.dfy`, `Sums.dfy` | the capital ledger: caps, reservations, fills, exceptions, and its limits in plain figures |
| `Sizing.dfy`, `OrderSizes.dfy` | order sizing, the per-order risk policy, their agreement with the ledger, and what they come to |
| `Execution.dfy`, `Settlement.dfy`, `AccountBooks.dfy`, `BookRuns.dfy`, `DecisionOutcomes.dfy`, `CycleOutcomes.dfy` | the two halves of the execution cycle, the whole cycle, an account's books over any run of cycles, and what each comes to |
| `Inventory.dfy`, `LanePosition.dfy`, `FillEffects.dfy` | average-cost inventory, the lane's cached copy of it, and what a fill does to both |
| `DocumentPatch.dfy`, `ConfigSchemas.dfy` | the comment-preserving edit of configuration documents, and the schemas it is used with |
| `ChangeSets.dfy`, `ConfigSources.dfy`, `ConfigPipeline.dfy`, `ConfigRuns.dfy`, `ConfigFormats.dfy`, `ConfigDocuments.dfy`, `WriteEffects.dfy` | change-set validation, the config directory, the write and reload pipeline, what holds over every run of it, the entities' formats, the link to the document edit, and what a write leaves behind |
| `Feeds.dfy`, `ReadModels.dfy` | bounded operator read models against the plain journal |
| `BarBuilder.dfy`, `Indicators.dfy` | bar aggregation, and indicator state under previews, live cycles and replays |
| `RemoteOrders.dfy` | classification of remote open orders, down to the blocked ledger |
| `Streams.dfy`, `LatencyMetric.dfy` | stream-spec merging, and the concurrent latency metric |
| `Options.dfy`, `Floats.dfy`, `Arithmetic.dfy`, `Orders.dfy`, `Market.dfy` | shared vocabulary |

Each stateful object of the source is a class whose methods are proved equal to a function
on values; the theorems about single calls and whole runs are lemmas about those functions. For
each operation the lemmas named `...OnInputs` say what it comes to in terms of its inputs.
Money and quantities are real numbers; where the code tests for finiteness, `Float` adds the
infinities and NaN. Times are integers. Tolerances are the source's constants. Connectors,
journals, validation verdicts, runtime builds and disk luck are parameters that range over
every behaviour.

The main results are the statements over whole runs, the exact conditions and what each
operation comes to (`PollTradesIff`, `RecoversIff`, `ReservationOnInputs`, `RunStaysUnder`,
`CloseOnInputs`, `OpenOnInputs`, `LaneSaleOnInputs`, `ResultOnInputs`, `SettledCycleOnInputs`,
`WriteOnInputs`, `BarsSumUpRuns`): safety and termination of recovery (`EveryRunIsSafe`,
`EveryInterleavingIsSafe`, `CatchUpIsBounded`), the service's polling refining the lane's (`AnsweredPollIsPoll`), what polling feeds the
indicators (`PolledEnginesFoldHistory`), caps over ledger runs (`RunStaysWithinCapsIff`), the
books of an account over any run of cycles (`ReservedOverRun`, `RunAgreesIff`,
`SettledCycleWithinCapsIff`), profit conservation and the lane's refinement
(`ProfitIsConserved`, `LaneRefinesInventory`), the document law
(`ReadsBackIffFaithful`, `ConfigDocumentsMeanNext`), the config pipeline
(`ServiceDocumentsReadBack`, `RestartScopeNeverDrifts`, `AtMostOneWriterPerGeneration`,
`LogIsChained`), the read models (`RecentEventsAgree`, `LatestReconciliationAgrees`), batch
equivalence of bar building (`StreamIsBatch`), sizing (`OpenIsMonotone`,
`SizedOrderAlwaysReserves`), remote orders (`SuspiciousOrderClosesAccount`), and the order-free
and concurrent results (`SameSpecsSameList`, `EveryInterleavingIsSound`). The last seven rows of
the table below follow from single definitions and are there for completeness.

Some promises do not hold on all inputs. Each of these has the exact condition under which it
does hold, and a lemma with an input where it does not:

- A catching-up lane makes progress on every poll, unless the kill switch is on or a journal
  refuses the no-progress record of an exhausted lane, which keeps it catching up for ever
  (`PollAdvancesUnlessBlocked`, `JournalOutageNeverEnds`). In the polling the service runs, a failed
  page fetch blocks as well: the lane crate's own loop takes such a lane out of sync, the runtime's
  returns the error and leaves it catching up (`FetchOutageNeverEnds`).
- Ledger and lanes agree after a cycle, unless it stops after a fill was booked, a lane revalued or
  a close released without the sync that should follow (`CycleAgreesIff`, `UnrecordedFillDisagrees`).
- Indicators are fed strictly rising bars, unless a live cycle aborts after evaluating a bar and
  a bar that is not newer follows (`FeedRisesIff`, `RetriedBarIsFedTwice`). The last-dispatched
  time moves for a live bar only when its cycle ends.
- The execution cycle gives back its reservation, unless an owner lookup is lost, or a connector
  failure releases an amount too small to have been reserved (`ReservationsAreRestored`,
  `ExceptionsHappen`).
- A cycle's close settles, unless quantity or prices are negligible or a record or lookup fails
  (`SettlesWhen`, `PricelessCloseLeavesLedgerBehind`).
- Ledger caps survive every operation but a fill that does not fit the headroom
  (`RunStaysWithinCapsIff`, `OverfillBreaksCap`), and a settled cycle whose lane gained more worth
  than the headroom; marking to the close alone can do that (`SettledCycleWithinCapsIff`,
  `RevaluationPassesCap`). At the moment an opening order goes out the caps always hold
  (`SubmissionsAreWithinCaps`).
- Sizing is monotone short of an unbounded target (`OpenIsMonotone`,
  `UnboundedTargetOpensNothing`).
- A patched document means `next` exactly when the patch is faithful
  (`ReadsBackIffFaithful`, `IncoherentDefaultLosesKeys`); the service's own documents always are
  (`ConfigDocumentsMeanNext`).
- The config directory reads back as the applied bundle, unless a created bot's file does not sort
  last, or a global update points back from a bot directory edited on disk to one with other bots
  (`AppliedWriteReadsBack`, `CreatedOutOfOrder`, `PointedBackReadsOtherBots`). The next reload then
  applies once more (`ReloadAfterWrite`).
- An explicit remote-submission setting is honoured, unless an inherited snapshot setting is
  flipped beside it; change-set validation stops that case (`SubmissionIsHonoured`,
  `FlippedSnapshotOverridesRequest`, `AcceptedUpdateIsHonoured`).

The If-Match header carries a bare generation number, not the entity-tag of section 13.1.1 of
RFC 9110; the model follows the code: absent, a number, or malformed.

## Model

| member | source | states |
|---|---|---|
| `LaneRecovery.ValidateRecoveryBars` | crates/openticker-lane/src/recovery.rs:114-138 | A fault names the first bar that breaks the window and how; a page passes exactly when its bars strictly increase from the last dispatched bar and none is past the target; the loop keeps only the previous time. |
| `LaneRecovery.LaneRuntime.StartRecovery` | crates/openticker-lane/src/recovery.rs:50-69 | New state: catching up, target set, no-progress count zero; nothing else moves. |
| `LaneRecovery.LaneRuntime.CompleteRecovery` | crates/openticker-lane/src/recovery.rs:71-80 | New state: healthy, no target, count zero. |
| `LaneRecovery.LaneRuntime.MarkOutOfSync` | crates/openticker-lane/src/recovery.rs:82-89 | New state: out of sync, target kept or else the last dispatched time. |
| `LaneRecovery.LaneRuntime.RecordNoProgress` | crates/openticker-lane/src/recovery.rs:91-105 | Count saturates upward; failing is advised exactly when the source is exhausted or the limit is reached. |
| `LaneRecovery.LaneRuntime.ReplayStateOnly` | crates/openticker-lane/src/signals.rs:304-318 | A bar is fed without trading exactly when it is newer than the last dispatched one; otherwise nothing changes. |
| `LaneRecovery.LaneRuntime.ApplyRecoveryPage` | crates/openticker-runtime/src/market_data/recovery_state.rs:21-44 | Applying a page is the fold of state-only replays, and a non-empty page resets the no-progress count. |
| `LaneRecovery.LaneRuntime.ReplayLive` | crates/openticker-runtime/src/market_data/recovery.rs:41-79 | Handing a bar to the live cycle moves the lane and yields an outcome as the bar's age, the lane state and the cycle's fate dictate; a cycle that aborts after its evaluation leaves the bar in the history of feeds without moving the last-dispatched time. |
| `LaneRecovery.LaneRuntime.RunRecoveryPages` | crates/openticker-lane/src/polling.rs:294-393 | The page loop with its early returns computes the recursive page protocol `RunPages`, for any connector and journal behaviour. |
| `LaneRecovery.LaneRuntime.AdvancePollingOnce` | crates/openticker-lane/src/polling.rs:144-292 | One poll, with every branch and early return, computes `Poll`. |
| `LaneRecovery.PagesAreSafe` | crates/openticker-lane/src/polling.rs:294-393 | Whatever pages come back: bars fed are state-only, strictly increasing and not past the target; the lane turns healthy only once the target is reached; no tradable outcome and no invariant violation. |
| `LaneRecovery.PollIsSafe` | crates/openticker-lane/src/polling.rs:144-393 | One poll from any safe lane keeps it safe, never reports the invariant violation, trades only if the lane was healthy and in step, turns healthy only at or past the goal, feeds nothing past the goal, and hands a bar to a live cycle only of a healthy lane in step. |
| `LaneRecovery.EveryRunIsSafe` | crates/openticker-lane/src/polling.rs:144-393 | After any sequence of polls and warm-up seedings, with any connector, journal and cycles: bars are dispatched in strictly increasing order, every bar fed is newer than all dispatched before it, and catching up implies a target and a last-dispatched time. |
| `LaneRecovery.NothingAbandonedWithoutAbort` | crates/openticker-lane/src/polling.rs:144-393 | A bar is fed without being dispatched only by a live cycle that aborts after its evaluation. |
| `LaneFeeds.FeedRisesIff` | crates/openticker-lane/src/cycle.rs:307-354 | A safe lane's indicators were fed in strictly rising order if and only if no bar of an aborted evaluation was followed by a bar that is not newer, and if and only if no engine saw a repeat. |
| `LaneFeeds.OfferedBarsAreNewer` | crates/openticker-runtime/src/market_data/recovery.rs:53-63 | Every bar polling offers to the indicators, live ones included, is newer than the last dispatched one at that moment. |
| `LaneFeeds.PolledEnginesFoldHistory` | crates/openticker-lane/src/polling.rs:144-393 | After any run of polls from a fresh lane, any engines have folded exactly the lane's history of feeds, and the fold is one over the distinct bars whenever nothing abandoned was fed again. |
| `LaneFeeds.RisingIffDistinctFold` | crates/openticker-lane/src/polling.rs:144-393 | That condition is exact, as an engine that remembers every bar shows. |
| `LaneFeeds.RunsWithoutAbortRise` | crates/openticker-lane/src/polling.rs:144-393 | Runs in which no live cycle aborts after evaluating feed strictly rising bars. |
| `LaneFeeds.RetriedBarIsFedTwice` | crates/openticker-lane/src/cycle.rs:307-354 | Two polls offering one bar, the first cycle aborting after its evaluation, feed it twice. |
| `LaneFeeds.GatedReplaysAgree` | crates/openticker-lane/src/signals.rs:304-318 | The replay gate of the polling model and that of the indicator model let the same bars through. |
| `LaneRecovery.PollAdvancesUnlessBlocked` | crates/openticker-lane/src/polling.rs:144-393 | A poll of a catching-up lane leaves that state or lowers (gap to target, remaining patience) lexicographically if and only if the kill switch is off and the journal does not block the no-progress record of an exhausted lane. |
| `LaneRecovery.CatchUpIsBounded` | crates/openticker-lane/src/recovery.rs:91-105 | Of the polls of a lane that is catching up all along, those stopped neither by the kill switch nor by the journal number at most a rank of its gap and patience, whatever connector and journal answer. |
| `LaneRecovery.JournalOutageNeverEnds` | crates/openticker-lane/src/polling.rs:312-393 | The exception is real: an exhausted lane whose journal refuses the write stays catching up for any number of polls. |
| `PollOutcomes.LiveBarOnInputs` | crates/openticker-lane/src/polling.rs:144-292 | What becomes of the bar a healthy lane is offered live, lane and result, for every fate of its cycle. |
| `PollOutcomes.PollTradesIff` | crates/openticker-lane/src/polling.rs:144-292 | A poll reports a tradable outcome if and only if the lane is healthy, its cycle goes through, and the bar is its first or the single confirmed bar it is behind; then that bar alone is recorded, traded and dispatched. |
| `PollOutcomes.IdlePollOnInputs` | crates/openticker-lane/src/polling.rs:154-210 | The kill switch, a silent connector and the absence of confirmed bars leave the lane alone, each with its own answer. |
| `PollOutcomes.CaughtUpPollOnInputs` | crates/openticker-lane/src/polling.rs:201-228 | A lane that has every confirmed bar records the newest only if it dispatched that one last; an out-of-sync lane is healthy again. |
| `PollOutcomes.PagesOnInputs` | crates/openticker-lane/src/polling.rs:294-393 | Paging judged as one stream of bars: with n the number of pages that pass, lane and result are those of the spent budget or of the answer to fetch n, for every kind of answer and journal behaviour. |
| `PollOutcomes.RecoveringPollOnInputs` | crates/openticker-lane/src/polling.rs:157-176 | The poll of a catching-up lane is that paging towards its target; what it records is exactly what it feeds. |
| `PollOutcomes.RecoversIff` | crates/openticker-lane/src/polling.rs:294-393 | A poll makes a catching-up lane healthy if and only if the pages within its budget rise to the target and the last of them is recorded. |
| `PollOutcomes.BehindPollOnInputs` | crates/openticker-lane/src/polling.rs:230-291 | A lane behind by more than one bar starts to recover towards the newest confirmed bar, or is taken out of sync by a first page it cannot use. |
| `PollOutcomes.OutOfSyncRecoversIff` | crates/openticker-lane/src/polling.rs:144-393 | An out-of-sync lane is healthy after a poll if and only if it is not behind, or recovery starts and the pages reach the newest confirmed bar. |
| `RuntimePolling.ApplyLanePollPlan` | crates/openticker-runtime/src/market_data/recovery_engine.rs:243-330 | Applying a fetched plan to the live lane computes `ApplyPlan`; a plan the lane has moved past does nothing. |
| `RuntimePolling.ApplyRangePlan` | crates/openticker-runtime/src/market_data/recovery_engine.rs:472-595 | The confirmed-range plan with every early return computes `ApplyRange`. |
| `RuntimePolling.AdvanceLanePollingOnce` | crates/openticker-runtime/src/market_data/recovery_engine.rs:332-367 | The plan, fetch and apply loop computes `RuntimePoll`. |
| `RuntimePolls.PlansAreHarmless` | crates/openticker-runtime/src/market_data/recovery_engine.rs:243-330 | However old a plan is and whatever was fetched for it: a lane that moved on is untouched; otherwise it stays safe, trades only if healthy and in step, turns healthy only at or past the plan's goal, and is fed nothing past it. |
| `RuntimePolls.EveryInterleavingIsSafe` | crates/openticker-runtime/src/polling_supervisor/stream_poll.rs:234-314 | With any number of polls under way, fetches coming back in any order or failing, and warm-up seedings between, the lane stays safe. |
| `RuntimePolls.AnsweredPollIsPoll` | crates/openticker-runtime/src/market_data/recovery_engine.rs:332-367 | When every fetch is answered and its events recorded, the service's poll is the lane crate's poll, lane and result alike, so every theorem about that one carries over. |
| `RuntimePolls.PollAdvancesUnlessBlocked` | crates/openticker-runtime/src/market_data/recovery_engine.rs:332-367 | A poll of a catching-up lane leaves that state or makes lexicographic progress if and only if neither the kill switch, nor its first fetch, nor the journal blocks it. |
| `RuntimePolls.CatchUpIsBounded` | crates/openticker-runtime/src/market_data/recovery_engine.rs:332-367 | Of the polls of a lane catching up all along, at most a rank of its gap and patience are not blocked. |
| `RuntimePolls.FetchOutageNeverEnds` | crates/openticker-runtime/src/market_data/recovery_engine.rs:349-355 | While the connector is down a lane stays exactly as it was, catching up, for any number of polls. |
| `RuntimeOutcomes.FirstFetchOnInputs` | crates/openticker-runtime/src/market_data/recovery_engine.rs:349-355 | A poll whose first fetch fails, or whose provider events cannot be recorded, leaves the lane as it was. |
| `RuntimeOutcomes.SecondFetchOnInputs` | crates/openticker-runtime/src/market_data/recovery_engine.rs:349-355 | The same for the second fetch; a lane found not to be behind has already completed its recovery. |
| `RuntimeOutcomes.LostPageOnInputs` | crates/openticker-runtime/src/market_data/recovery_engine.rs:343-363 | A page that cannot be fetched leaves the lane with the bars of the pages before it, still catching up. |
| `Ledgers.AccountLedger.constructor` | crates/openticker-ledger/src/account_ledger.rs:45-55 | A new ledger holds the sanitised declared total and nothing else, and is sound. |
| `Ledgers.AccountLedger.SetLiveBalance` | crates/openticker-ledger/src/account_ledger.rs:64-66 | Only the live balance changes, sanitised. |
| `Ledgers.AccountLedger.SetUnattributed` | crates/openticker-ledger/src/account_ledger.rs:68-70 | Only the unattributed notional changes, sanitised. |
| `Ledgers.AccountLedger.ReplaceExceptions` | crates/openticker-ledger/src/account_ledger.rs:72-74 | Only the exceptions change. |
| `Ledgers.AccountLedger.ReplaceLaneOpen` | crates/openticker-ledger/src/account_ledger.rs:76-92 | The open map becomes exactly the entries above the tolerance, last one winning. |
| `Ledgers.AccountLedger.AccountTradeableRoom` | crates/openticker-ledger/src/account_ledger.rs:251-258 | Room left under the effective cap, zero while any exception blocks. |
| `Ledgers.AccountLedger.BotOpenRoom` | crates/openticker-ledger/src/account_ledger.rs:265-268 | Room left of the bot's share, from the group sum over its owners. |
| `Ledgers.AccountLedger.TryReserveOpen` | crates/openticker-ledger/src/account_ledger.rs:100-144 | Refuses exactly per `ReserveRefusal` (which capacity is named included), else adds the whole sanitised amount to one owner; amounts within the tolerance succeed without effect. |
| `Ledgers.AccountLedger.ReleaseReservation` | crates/openticker-ledger/src/account_ledger.rs:146-156 | Subtracts a positive finite amount, dropping entries within the tolerance; any other amount is an error without effect. |
| `Ledgers.AccountLedger.ReconcileOpenFill` | crates/openticker-ledger/src/account_ledger.rs:158-194 | Moves a reservation into open notional: releases the reserved amount, adds the filled one. |
| `Ledgers.AccountLedger.ReleasePosition` | crates/openticker-ledger/src/account_ledger.rs:196-206 | Subtracts from the open map like a release. |
| `Ledgers.RoomAdmits` | crates/openticker-ledger/src/account_ledger.rs:100-129 | Whatever fits the tradeable room is reserved in full. |
| `Ledgers.StepMovesCommitments` | crates/openticker-ledger/src/account_ledger.rs:100-206 | Any covered operation raises total and per-bot commitments by no more than a granted reservation does. |
| `Ledgers.StepKeepsCaps` | crates/openticker-ledger/src/account_ledger.rs:100-206 | One reserve, release, covered fill or exception change keeps the account and every bot within cap plus one tolerance. |
| `Ledgers.RunStaysWithinCaps` | crates/openticker-ledger/src/account_ledger.rs:100-206 | Over any run of such operations, committed notional stays within the effective cap plus one tolerance and each bot within its allocation plus one tolerance: tolerances do not add up. |
| `Ledgers.StepKeepsCapsIff` | crates/openticker-ledger/src/account_ledger.rs:100-206 | From within the caps, an operation ends within them if and only if it fits: for a fill, what it adds less what it gives back is within the headroom of the account and of its own bot. |
| `Ledgers.RunStaysWithinCapsIff` | crates/openticker-ledger/src/account_ledger.rs:100-206 | A run that starts within the caps is within them at every point if and only if every fill fits when it comes. |
| `Ledgers.FillMovesExactly` | crates/openticker-ledger/src/account_ledger.rs:158-194 | A fill moves the account's and its bot's commitments by exactly its open notional less what the release really takes off. |
| `Ledgers.GrantedReservationIsWithinCaps` | crates/openticker-ledger/src/account_ledger.rs:100-144 | Whatever the ledger looked like before, right after a granted reservation the account and the owner's bot are within cap plus one tolerance. |
| `Ledgers.OverfillBreaksCap` | crates/openticker-ledger/src/account_ledger.rs:158-194 | A fill that does not fit exists: at twice its reservation it carries the account past its cap. |
| `Ledgers.BlockedRunReservesNothing` | crates/openticker-ledger/src/account_ledger.rs:251-258 | While a blocking exception stands, no run makes any owner's reservation grow. |
| `Ledgers.BotsAddUp` | crates/openticker-ledger/src/account_ledger.rs:224-244 | Per-bot commitments plus unattributed notional equal the account's total commitment. |
| `LedgerLimits.ReservationOnInputs` | crates/openticker-ledger/src/account_ledger.rs:57-144 | An amount is reserved, in full, if and only if nothing blocks and with it the account stays under the declared total and the live balance, and the bot under its percentage of both, each plus one tolerance; a refusal names the bot when its own share is used up, else the account. |
| `LedgerLimits.NegligibleReservation` | crates/openticker-ledger/src/account_ledger.rs:100-144 | An amount that is not finite or within the tolerance is granted and leaves no trace. |
| `LedgerLimits.ReservedStaysUnder` | crates/openticker-ledger/src/account_ledger.rs:57-144 | Right after a reservation, open plus unattributed plus reserved notional is under both figures, and the bot's part under its share of both. |
| `LedgerLimits.CapsAreFigures` | crates/openticker-ledger/src/account_ledger.rs:57-62 | Being within the caps is, for account and every bot, being under the declared total and the live balance. |
| `LedgerLimits.RunStaysUnder` | crates/openticker-ledger/src/account_ledger.rs:100-206 | Over any run of covered operations account and bots stay under the figures of its start. |
| `LedgerLimits.ReleaseOnInputs` | crates/openticker-ledger/src/account_ledger.rs:146-206 | A release takes a positive finite amount off one owner's entry, reserved or open, and drops what is left within the tolerance; nothing else moves. |
| `LedgerLimits.FillOnInputs` | crates/openticker-ledger/src/account_ledger.rs:158-194 | A fill takes its reservation off one owner's reserved entry and adds its notional to the same owner's open entry; nothing else moves. |
| `LedgerLimits.RebuiltMap` | crates/openticker-ledger/src/account_ledger.rs:76-92 | The rebuilt open map holds, for each owner, the last of its amounts above the tolerance, and no entry exactly when there is none. |
| `Sums.Accumulate` | crates/openticker-ledger/src/account_ledger.rs:379-390 | Summing the entries of a group by iterating the map gives the order-free group total. |
| `Sizing.FloorNeverRoundsUp` | crates/openticker-execution/src/sizing.rs:239-255 | Step flooring stays between zero and the value. |
| `Sizing.FloorLandsOnStep` | crates/openticker-execution/src/sizing.rs:239-255 | The result is within 1e-9 of a step of a whole number of steps. |
| `Sizing.FloorIsIdempotent` | crates/openticker-execution/src/sizing.rs:239-255 | Flooring twice is flooring once. |
| `Sizing.FloorIsMonotone` | crates/openticker-execution/src/sizing.rs:239-255 | Flooring preserves order. |
| `Sizing.CloseWithinHolding` | crates/openticker-execution/src/sizing.rs:51-98 | A close never exceeds the held quantity, whatever market, constraints or non-finite inputs. |
| `Sizing.OpenSpendsWithin` | crates/openticker-execution/src/sizing.rs:51-98 | A non-zero open is positive and its notional is within target, order limit, bot room and account room. |
| `Sizing.OpenMeetsMinimums` | crates/openticker-execution/src/sizing.rs:165-237 | A non-zero open meets the minimum quantity and minimum notional. |
| `Sizing.OpenIsMonotone` | crates/openticker-execution/src/sizing.rs:51-98 | More target, bot room or account room never gives a smaller open, through market policy and constraints, unless the target is unbounded. |
| `Sizing.UnboundedTargetOpensNothing` | crates/openticker-execution/src/sizing.rs:51-98 | The exception is exact: with target and limit both unbounded the sizer opens nothing where a finite target would. |
| `Sizing.SizedOrderPassesNotionalLimit` | crates/openticker-risk/src/policy.rs:78-85 | An open sized from any rooms never trips the policy's per-order notional limit. |
| `OrderSizes.CloseOnInputs` | crates/openticker-execution/src/sizing.rs:33-50 | A close sells what is held, in whole shares where one or more is held, less than one step short of it; it is zero exactly when that is negligible or short of the minimum quantity, whatever the minimum notional, and reports no ledger outcome. |
| `OrderSizes.PlainCloseOnInputs` | crates/openticker-execution/src/sizing.rs:127-163 | Without constraints a close sells all of a coin, and of a stock all whole shares or the fraction left. |
| `OrderSizes.OpenOnInputs` | crates/openticker-execution/src/sizing.rs:51-98 | An open spends the least of target, order limit and both rooms, as whole shares, steps and both minimums allow; it is dust exactly when nothing comes of something. |
| `OrderSizes.OpenFallsShortBy` | crates/openticker-execution/src/sizing.rs:127-237 | An open that is placed falls short of what it may buy by less than a share and a step together. |
| `OrderSizes.NothingToOpen` | crates/openticker-execution/src/sizing.rs:51-80 | With no finite positive limit or no room nothing is opened, and a used-up room is named, the bot's first. |
| `OrderSizes.NothingToSize` | crates/openticker-execution/src/sizing.rs:21-50 | No price, no intent or a holding that is no holding is sized to zero. |
| `OrderSizes.PolicyOnInputs` | crates/openticker-risk/src/policy.rs:16-98 | The risk policy is an ordered list of checks, the later ones for opens alone: the first that strikes rejects, and the intent is allowed exactly when none does. |
| `SizedReservations.SizedOrderAlwaysReserves` | crates/openticker-portfolio/src/ledger_sync.rs:65-70 | An open sized from the ledger's own rooms is always granted by the unchanged ledger, in full. |
| `Execution.SubmitAndSettle` | crates/openticker-lane/src/execution.rs:383-494 | Submitting, then releasing on connector failure or reconciling the fill, leaves the ledger and result `AfterSubmit` names, on every exit. |
| `Execution.ApplyRiskDecisionEffects` | crates/openticker-lane/src/execution.rs:261-523 | The whole risk-decision half of the cycle, with every early exit, computes `Effects`. |
| `Execution.ReservationsAreRestored` | crates/openticker-lane/src/execution.rs:276-523 | On every exit the reserved map is the one on entry if and only if neither a lost owner lookup strands a reservation nor a sub-tolerance release nibbles at another one. |
| `Execution.OpenGrowsByFill` | crates/openticker-lane/src/execution.rs:276-523 | Open notional grows by exactly the filled notional of an accepted open, for its owner alone, and is otherwise untouched. |
| `Execution.ExceptionsHappen` | crates/openticker-lane/src/execution.rs:276-523 | Both exceptions to restoration occur on concrete inputs. |
| `Execution.ReservedOnExit` | crates/openticker-lane/src/execution.rs:276-523 | On every exit the reserved map is the one on entry, plus a stranded reservation, or less what a nibble takes. |
| `Execution.DecisionEnds` | crates/openticker-lane/src/execution.rs:276-523 | Whether a risk decision fails and whether it trades are read off its records, lookups, reservation and the connector's answer. |
| `Execution.DecisionKeepsCaps` | crates/openticker-lane/src/execution.rs:276-523 | Acting on one risk decision, with a fill within its reservation, keeps account and bots within their caps. |
| `Execution.DecisionsStayWithinCaps` | crates/openticker-lane/src/execution.rs:276-523 | So does any sequence of risk decisions alone, whatever fails along the way; revaluation of lanes between them is the subject of the whole-cycle rows below. |
| `DecisionOutcomes.SendsOnInputs` | crates/openticker-lane/src/execution.rs:276-382 | An opening order goes out exactly when its records and lookups succeed and its cost is negligible or affordable in plain figures. |
| `DecisionOutcomes.ResultOnInputs` | crates/openticker-lane/src/execution.rs:276-523 | Each result of a decision (traded, idle, refused by risk, refused by the ledger with its reason, each kind of failure) if and only if its cause. |
| `DecisionOutcomes.LedgerOnInputs` | crates/openticker-lane/src/execution.rs:276-523 | The ledger a decision leaves: filled notional added, reservation given back, kept when the owner is lost, nibbled when too small to have been made; nothing else moves. |
| `Settlement.ReleaseAndSync` | crates/openticker-lane/src/execution.rs:552-562 | Record, lookup, release and ledger sync, each able to fail, leave the ledger and result `SettleLedger` names. |
| `Settlement.ApplyProcessBarStateEffects` | crates/openticker-lane/src/execution.rs:531-573 | The second half of the cycle computes `Settle`: lane first, then release, then the ledger rebuilt from all lanes. |
| `Settlement.SettleKeepsCoherent` | crates/openticker-lane/src/execution.rs:531-573 | Whatever the decision, the order and the failures, cached fields and inventory of the lane still agree afterwards. |
| `Settlement.SettlesWhen` | crates/openticker-lane/src/execution.rs:531-573 | Settling completes if and only if the ledger syncs and an open order is negligible or has quantity and price above the tolerance with its record written, or a close takes more than the tolerance at positive prices with record and owner lookup in order. |
| `Settlement.UnsettledLedger` | crates/openticker-lane/src/execution.rs:531-573 | A settlement that stops has moved the ledger only by a release that went through. |
| `Settlement.PricelessCloseLeavesLedgerBehind` | crates/openticker-lane/src/execution.rs:557-560 | Without a positive closing price the lane has sold, the release is refused and the ledger is left unchanged. |
| `CycleOutcomes.SettlementOnInputs` | crates/openticker-lane/src/execution.rs:531-573 | Which of lane, record, lookup, release or sync stops a settlement, or that it completes, from order, holding and close. |
| `CycleOutcomes.SettledLedgerOnInputs` | crates/openticker-lane/src/execution.rs:531-573 | The ledger is rebuilt when a settlement completes, moved by the release alone when only the sync fails, and otherwise untouched. |
| `CycleOutcomes.EarlyStopOnInputs` | crates/openticker-lane/src/cycle.rs:254-311 | A cycle that stops before execution has synced the ledger, marked its lane to the close, or both, and nothing else. |
| `CycleOutcomes.SettledCycleOnInputs` | crates/openticker-lane/src/cycle.rs:254-357 | A settled cycle has bought or sold the accepted quantity at the accepted price with the order's fees, or only marked its lane; the open map is that of the lanes and nothing else of the ledger moved. |
| `AccountBooks.RunLaneCycle` | crates/openticker-lane/src/cycle.rs:254-357 | The whole cycle on the live ledger and lane (sync, mark to the bar's close, sync, decide, settle), wherever it stops, failing syncs included, computes `Cycle`. |
| `AccountBooks.OneLaneOneEntry` | crates/openticker-portfolio/src/ledger_sync.rs:48-62 | Replacing one lane changes exactly its owner's entry in the rebuilt open map. |
| `AccountBooks.AgreementPerOwner` | crates/openticker-portfolio/src/ledger_sync.rs:48-62 | In books that agree, each owner's open notional is what its lane is worth. |
| `BookRuns.ReservedOverRun` | crates/openticker-lane/src/cycle.rs:254-357 | Over any run of cycles, each owner's reservation is the starting one plus exactly what stranding cycles left and nibbling cycles took. |
| `BookRuns.NothingLeftOverRun` | crates/openticker-lane/src/cycle.rs:254-357 | A run in which no cycle strands or nibbles leaves the reserved map as it was, whatever else fails. |
| `BookRuns.ExecutionOnInputs` | crates/openticker-lane/src/cycle.rs:307-348 | Whether a cycle settles, and what its lane is worth in the end, are read off its inputs: decision, order, records, lookups, syncs and the close. |
| `BookRuns.LaneValueAfter` | crates/openticker-lane/src/position.rs:219-373 | After the fill step a lane is worth its quantity after the order at the close (at average cost when the close is no price), or what it was when the order does not move it. |
| `BookRuns.CycleAgreesIff` | crates/openticker-lane/src/cycle.rs:254-357 | After a cycle that syncs, ledger and lanes agree if and only if it completes, or the lane's worth equals its worth at the last sync plus a booked fill less a release that went through, all stated on inputs; a cycle that never syncs leaves them as they were. |
| `BookRuns.RunAgreesIff` | crates/openticker-lane/src/cycle.rs:254-357 | After any run, agreement is decided by the last cycle that reached the sync, or by the books at the start when none did. |
| `BookRuns.UnrecordedFillDisagrees` | crates/openticker-lane/src/execution.rs:383-494 | A fill that is booked and then not recorded leaves the ledger with 10 for a lane that is still flat. |
| `BookRuns.SubmissionsAreWithinCaps` | crates/openticker-lane/src/execution.rs:276-523 | Whenever an opening order goes out with a reservation, account and bot are within cap plus one tolerance; this holds of any ledger, so of any state a run can reach. |
| `BookRuns.SettledCycleWithinCapsIff` | crates/openticker-lane/src/cycle.rs:254-357 | A settled cycle ends within the account's or its bot's cap if and only if what its lane gained in worth, read off the inputs and revaluation included, is within the headroom before it; other bots are as they were. |
| `BookRuns.RevaluationPassesCap` | crates/openticker-lane/src/signals.rs:171-174 | A quiet bar alone can pass the cap: 4 held at 100 under a cap of 1000, closing at 300. |
| `Inventories.InventoryState.ApplyFill` | crates/openticker-ledger/src/inventory.rs:130-204 | Refuses with the error the checks name and then changes nothing, else moves the lot and the three accumulators as `Filled` says; soundness is kept. |
| `Inventories.BuyBasis` | crates/openticker-ledger/src/inventory.rs:150-170 | A purchase raises the cost basis by exactly its price plus fee. |
| `Inventories.StepConservation` | crates/openticker-ledger/src/inventory.rs:130-204 | One fill: change in net profit equals cash received less cash paid plus change in basis, less what a close-out drops, which the tolerance times average cost bounds. |
| `Inventories.ProfitIsConserved` | crates/openticker-ledger/src/inventory.rs:130-204 | The same over every sequence of fills. |
| `Inventories.NetIsGrossLessFees` | crates/openticker-ledger/src/inventory.rs:130-204 | Net profit stays gross profit less fees over every sequence. |
| `Inventories.AverageCostIsBounded` | crates/openticker-ledger/src/inventory.rs:130-204 | Average cost stays between the lowest and highest all-in unit cost bought since last flat. |
| `FillEffects.RefusalOnInputs` | crates/openticker-ledger/src/inventory.rs:130-150 | A fill is refused for its quantity, then its price, then for selling more than is held. |
| `FillEffects.PurchaseOnInputs` | crates/openticker-ledger/src/inventory.rs:150-170 | A purchase adds its quantity and spreads its price and dollar fee over the lot; it realises nothing. |
| `FillEffects.SaleOnInputs` | crates/openticker-ledger/src/inventory.rs:171-204 | A sale takes its quantity off at unchanged cost and realises the price difference gross, and less the fee net. |
| `LanePositions.LaneRuntime.SyncInventory` | crates/openticker-lane/src/position.rs:50-56 | The inventory is rebuilt from the cached fields. |
| `LanePositions.LaneRuntime.SyncFields` | crates/openticker-lane/src/position.rs:58-95 | The cached fields are overwritten from the inventory and the valuation price. |
| `LanePositions.LaneRuntime.HeldQuantity` | crates/openticker-lane/src/position.rs:192-203 | Inventory quantity, else cached quantity, else zero. |
| `LanePositions.LaneRuntime.ApplyFill` | crates/openticker-lane/src/position.rs:219-263 | Sync, fill, sync back; on an inventory error only the first sync remains. |
| `LanePositions.LaneRuntime.ApplyProcessBarFillState` | crates/openticker-lane/src/position.rs:327-373 | Decision and order move the lane as `FillState` says, with sells clamped to the holding. |
| `LanePositions.SyncedInventory` | crates/openticker-lane/src/position.rs:42-56 | On a coherent lane the rebuild keeps the lot and only forgets how net profit splits. |
| `LanePositions.StepFollows` | crates/openticker-lane/src/position.rs:219-373 | Any decision and order keeps lane and pure inventory equal in quantity, entry price and realised profit, and no close fails for insufficient quantity. |
| `LanePositions.LaneRefinesInventory` | crates/openticker-lane/src/position.rs:219-373 | So does any sequence; has_position holds exactly when the quantity exceeds the tolerance. |
| `LanePositions.ReferenceIsFold` | crates/openticker-lane/src/position.rs:219-373 | The reference is one pure inventory fold over the clamped fills. |
| `LanePositions.LaneProfitIsConserved` | crates/openticker-lane/src/position.rs:219-373 | From flat, a lane's realised profit obeys the inventory's conservation law in its own cached fields. |
| `FillEffects.FeeOfOrder` | crates/openticker-lane/src/position.rs:158-190 | An order's fee is what its own fields say: none without an asset and a positive amount, and costed at its positive dollar value. |
| `FillEffects.RestoreOnInputs` | crates/openticker-ledger/src/inventory.rs:70-100 | An inventory restored from a position holds a lot only for an ample quantity with a positive entry price; a profit that is no number counts as none. |
| `FillEffects.LaneSaleOnInputs` | crates/openticker-lane/src/position.rs:265-325 | An accepted sale leaves the holding less the ordered quantity, at most all of it and for an infinite order all, a residue within the tolerance dropped; realised profit, valuation, record and released notional follow in figures, and a refused one changes nothing. |
| `FillEffects.LanePurchaseOnInputs` | crates/openticker-lane/src/position.rs:219-263 | An accepted purchase leaves the holding plus the ordered quantity with price and fee averaged into its cost; a refused one changes nothing. |
| `FillEffects.LaneQuietOnInputs` | crates/openticker-lane/src/position.rs:327-373 | Without an order or leave to trade nothing is bought or sold. |
| `FillEffects.HeldOnInputs` | crates/openticker-lane/src/position.rs:192-203 | What a lane holds is the inventory's lot where ample, else the cached quantity where ample, else nothing, whether or not they agree. |
| `FillEffects.MarkOnInputs` | crates/openticker-lane/src/signals.rs:171-174 | Marking values the holding at the close. |
| `DocumentPatch.InlineReadsBack` | crates/openticker-config/src/writing.rs:177-197 | Conversion to an inline value loses nothing at any nesting. |
| `DocumentPatch.ItemReadsBack` | crates/openticker-config/src/writing.rs:149-175 | Conversion to tables, arrays of tables and values loses nothing at any nesting. |
| `DocumentPatch.RemoveDropped` | crates/openticker-config/src/writing.rs:116-120 | The first loop removes exactly the keys that `next` drops. |
| `DocumentPatch.RewriteKey` | crates/openticker-config/src/writing.rs:122-146 | One changed key: recursion into a table, or replacement by a freshly converted item without decoration. |
| `DocumentPatch.ApplyTableDiff` | crates/openticker-config/src/writing.rs:111-147 | The looping, in-place edit computes the declarative patch `Patched`. |
| `DocumentPatch.ReadsBackIffFaithful` | crates/openticker-config/src/writing.rs:111-147 | Reading the patched document with defaults gives exactly `next` if and only if the patch is faithful at every key it leaves alone. |
| `DocumentPatch.CoherentIsFaithful` | crates/openticker-config/src/writing.rs:23-40 | If every defaulted table is what an empty table reads as, every patch is faithful. |
| `DocumentPatch.UpdatedDocumentMeansNext` | crates/openticker-config/src/writing.rs:23-40 | For coherent defaults and every readable document, the updated document reads back as `next`. |
| `DocumentPatch.WritingTwiceIsWritingOnce` | crates/openticker-config/src/writing.rs:23-40 | Writing the same configuration again changes nothing. |
| `DocumentPatch.IncoherentDefaultLosesKeys` | crates/openticker-config/src/writing.rs:111-147 | The writer is generic, and for a schema with an incoherent default it loses a key; none of the service's schemas is such. |
| `ConfigSchemas.ConfigSchemasAreCoherent` | crates/openticker-config/src/model.rs:8-328 | The schemas of the global, account, risk-profile and bot documents, field by field with their defaults, are coherent. |
| `ConfigSchemas.ConfigDocumentsMeanNext` | crates/openticker-config/src/writing.rs:23-40 | For every readable document of these four kinds and every serialised configuration, the updated document reads back as exactly that configuration, and a second write changes nothing. |
| `ConfigSchemas.SerialisedIsSaturated` | crates/openticker-config/src/writing.rs:105-107 | Whatever fitting values its fields have, a serialised struct reads back as itself. |
| `DocumentPatch.AgreedPathsAreUntouched` | crates/openticker-config/src/writing.rs:111-147 | Wherever old and new configuration agree, at any depth, the raw item on disk (or its absence, unknown keys included) is untouched. |
| `DocumentPatch.EditedTablesKeepTheirHeaders` | crates/openticker-config/src/writing.rs:111-147 | A table edited in place keeps its own comments and style at any depth; one that was not there is implicit. |
| `DocumentPatch.FreshNodesAreWellFormed` | crates/openticker-config/src/writing.rs:149-197 | Fresh tables and lists of tables get headers of their own, every other list is a value. |
| `DocumentPatch.PatchKeepsWellFormed` | crates/openticker-config/src/writing.rs:111-197 | Nothing with a header of its own ever ends up inside a value. |
| `ChangeSets.SortedIds` | crates/openticker-http/src/config_ops.rs:157-161 | Sorting a set of ids loses, adds and repeats none. |
| `ChangeSets.CollectAccountViolations` | crates/openticker-http/src/config_ops.rs:131-202 | Reports exactly the account findings: changed set, changed settings, changed credentials. |
| `ChangeSets.CollectRunningInstanceViolations` | crates/openticker-http/src/config_ops.rs:204-279 | Reports exactly the findings about running bots. |
| `ChangeSets.ValidateReloadChangeSet` | crates/openticker-http/src/config_ops.rs:99-129 | Reports every finding and nothing else, and none exactly when the change is compatible. |
| `ChangeSets.CompatibleMeansNoFinding` | crates/openticker-http/src/config_ops.rs:99-279 | No finding if and only if the restart scope is equal and every running bot keeps all it may not change. |
| `ChangeSets.AccountByIdIsLast` | crates/openticker-http/src/config_ops.rs:131-156 | Of accounts with one id the last counts. |
| `ChangeSets.BotByIdIsLast` | crates/openticker-http/src/config_ops.rs:204-220 | Of bots with one id the last counts. |
| `ChangeSets.CompatibleOnInputs` | crates/openticker-http/src/config_ops.rs:99-279 | A change is compatible if and only if storage, bot directory, the set of accounts with nine settings each, and six settings of every running bot are as they were. |
| `ConfigSources.ReadReplaced` | crates/openticker-config/src/sources.rs:137-162 | After one file is replaced, reading the directory gives the old sources with that one replaced. |
| `ConfigSources.ReadCreated` | crates/openticker-config/src/sources.rs:137-162 | After a file is created, its source appears at its place in name order. |
| `ConfigSources.ReadRemoved` | crates/openticker-config/src/sources.rs:137-162 | After a file is removed, its source alone is gone. |
| `ConfigPipeline.HttpState.PushStatus` | crates/openticker-http/src/config_ops.rs:502-507 | The trimming loop keeps the newest twenty entries. |
| `ConfigPipeline.HttpState.RecordStatus` | crates/openticker-http/src/config_ops.rs:460-480 | Adds one entry at the current generation. |
| `ConfigPipeline.HttpState.RecordApplied` | crates/openticker-http/src/config_ops.rs:485-500 | Bumps the generation and records it in one step. |
| `ConfigPipeline.HttpState.ApplyBundleAndRecord` | crates/openticker-http/src/config_ops.rs:333-356 | With a prebuilt runtime it cannot fail: the bundle is swapped, bumped and recorded; otherwise a failed build is recorded and changes nothing else. |
| `ConfigPipeline.HttpState.CheckIfMatch` | crates/openticker-http/src/config_write_handlers.rs:85-114 | Absent passes, anything but a bare number is a bad request, another number is stale. |
| `ConfigPipeline.HttpState.BeginConfigWrite` | crates/openticker-http/src/config_write_handlers.rs:118-143 | The prologue refuses in order: unmanaged, header, unreadable sources. |
| `ConfigPipeline.HttpState.FinishConfigWrite` | crates/openticker-http/src/config_write_handlers.rs:148-260 | Nothing changes unless every check passes and the file is written, and then nothing can fail; an incompatible change is answered with all its findings. |
| `ConfigPipeline.HttpState.HandleWrite` | crates/openticker-http/src/config_write_handlers.rs:290-621 | The six mutating endpoints, from request checks to applied bundle, compute `Write`. |
| `ConfigPipeline.HttpState.ReloadFromDisk` | crates/openticker-http/src/config_ops.rs:365-448 | A reload computes `Reload`: failed, unchanged, rejected or applied, each recorded. |
| `WriteEffects.LoadOnInputs` | crates/openticker-config/src/sources.rs:41-93 | Loading gives the one bundle the directory describes, each entity from its file in name order, and fails exactly when it describes none. |
| `WriteEffects.StageOnInputs` | crates/openticker-http/src/config_write_handlers.rs:292-621 | For each of the six requests: the first entity with the id is the one sent, the new bot is added last, the deleted one alone is gone, an account has every field as sent with id and credentials kept; all else is untouched, and one file is written for it under its own name. |
| `WriteEffects.WriteOnInputs` | crates/openticker-http/src/config_write_handlers.rs:85-621 | A write is refused for the first check that strikes, in order, and then nothing changes; otherwise bundle and directory show the one change asked for and the generation moves by one. |
| `WriteEffects.ReloadOnInputs` | crates/openticker-http/src/config_ops.rs:365-448 | A reload applies what the directory describes exactly when it is readable, valid, different, within the restart scope and buildable, and otherwise changes neither bundle nor generation. |
| `ConfigRuns.AppliedWriteReadsBack` | crates/openticker-http/src/config_write_handlers.rs:148-260 | After an applied write the directory reads back as the bundle in memory if and only if `WillReadBack`: a created file sorts last, and a global update keeps the bots it staged. |
| `ConfigRuns.EveryAppliedWriteReadsBack` | crates/openticker-http/src/config_write_handlers.rs:148-260 | The same after any run of writes, reloads and outside edits. |
| `ConfigDocuments.DocumentCodecIsLawful` | crates/openticker-config/src/writing.rs:23-47 | For every entity format with coherent defaults, what the in-place update or the fresh rendering produces reads back as the entity written. |
| `ConfigDocuments.WrittenDocumentsReadBack` | crates/openticker-http/src/config_write_handlers.rs:148-260 | The read-back theorem with those codecs in place: from edited document trees to the bundle of the running service, after any run. |
| `ConfigRuns.StagedCreateReadsBack` | crates/openticker-http/src/config_write_handlers.rs:400-456 | Even a bot created out of order reads back with the same bots, only elsewhere in the list. |
| `ConfigRuns.ReloadAfterWrite` | crates/openticker-http/src/config_ops.rs:365-404 | The reload that follows an applied write finds nothing to do if and only if `WillReadBack`. |
| `ConfigRuns.CreatedOutOfOrder` | crates/openticker-http/src/config_write_handlers.rs:400-456 | Under any lawful codecs and for any other settings, a bot created beside a later-named one is listed last in memory and first on disk. |
| `ConfigRuns.PointedBackReadsOtherBots` | crates/openticker-http/src/config_write_handlers.rs:292-324 | Under any lawful codecs and for any other settings, a global update that points back from an edited bot directory leaves memory with the bots of one directory and disk with those of the other. |
| `ConfigDocuments.ExceptionsOnDocuments` | crates/openticker-http/src/config_write_handlers.rs:292-456 | Both exceptions show on documents written and read by the in-place writer. |
| `ConfigDocuments.ConfigFormatsSerialise` | crates/openticker-config/src/model.rs:8-328 | For the service's own schemas nothing is asked of the defaults. |
| `ConfigFormats.ServiceFormatsRoundTrip` | crates/openticker-config/src/model.rs:8-328 | Every global, account, risk-profile and bot configuration is written as a value of its schema and read back as itself. |
| `ConfigFormats.GlobalDocumentSays` | crates/openticker-config/src/model.rs:9-95 | The global document says each setting under its name, in its section. |
| `ConfigFormats.AccountDocumentSays` | crates/openticker-config/src/model.rs:97-114 | An account's document says each field under its name, and absent ones not at all. |
| `ConfigFormats.RiskDocumentSays` | crates/openticker-config/src/model.rs:200-212 | A risk profile's document says each field under its name. |
| `ConfigFormats.BotDocumentSays` | crates/openticker-config/src/model.rs:214-253 | A bot's document says each field under its name. |
| `ConfigSchemas.DecodeEntries` | crates/openticker-config/src/model.rs:8-328 | Reading a serialised struct field by field gives back what was serialised. |
| `ConfigDocuments.ServiceDocumentsReadBack` | crates/openticker-http/src/config_write_handlers.rs:148-260 | The read-back theorem for the documents the service really writes, with nothing assumed of codecs, schemas or serialisers, after any run. |
| `ConfigRuns.RestartScopeNeverDrifts` | crates/openticker-http/src/config_ops.rs:99-202 | After any run of writes, reloads and outside edits, storage, bot directory, accounts, connector settings and credential references are those of startup. |
| `ConfigRuns.GenerationNamesBundle` | crates/openticker-http/src/config_ops.rs:485-500 | While the generation stays the same, so does the bundle. |
| `ConfigRuns.GuardedWriteLosesNoUpdate` | crates/openticker-http/src/config_write_handlers.rs:85-114 | A write guarded by the generation a client saw is applied only to the bundle that client saw. |
| `ConfigRuns.AtMostOneWriterPerGeneration` | crates/openticker-http/src/config_write_handlers.rs:85-114 | Of two writes presenting one generation, with anything in between, the second is refused and changes nothing. |
| `ConfigRuns.HistoryIsNewestEntries` | crates/openticker-http/src/config_ops.rs:502-507 | The history is the newest twenty of everything ever recorded. |
| `ConfigRuns.LogIsChained` | crates/openticker-http/src/config_ops.rs:460-500 | Everything recorded is one chain: each applied entry one generation up, every other level, ending at the current generation, which counts the applied entries. |
| `ConfigRuns.HistoryIsSound` | crates/openticker-http/src/config_ops.rs:460-507 | From startup on: at most twenty entries, chained, newest at the current generation. |
| `ReadModels.InMemoryJournal.AppendEvent` | crates/openticker-storage/src/in_memory.rs:39-52 | Appends one record with the next id. |
| `ReadModels.InMemoryJournal.AppendReconciliation` | crates/openticker-storage/src/in_memory.rs:455-474 | Appends one record with the next id. |
| `ReadModels.InMemoryJournal.RecentEventsByScope` | crates/openticker-storage/src/in_memory.rs:64-81 | The newest matches, oldest first. |
| `ReadModels.InMemoryJournal.LatestReconciliationForLane` | crates/openticker-storage/src/in_memory.rs:518-529 | The last record of the lane. |
| `ReadModels.JournalStaysOrdered` | crates/openticker-storage/src/in_memory.rs:590-617 | For any record family: appending and pruning keep ids strictly increasing until they saturate at the largest integer, and the next id follows every id in use. |
| `ReadModels.AppendsUseNextId` | crates/openticker-storage/src/in_memory.rs:39-52 | Events and reconciliations are appended with exactly that next id. |
| `ReadModels.AppendOnInputs` | crates/openticker-storage/src/in_memory.rs:39-52 | An appended record carries what was written under the number after the last in use. |
| `ReadModels.LastMatchIsLast` | crates/openticker-storage/src/in_memory.rs:506-529 | A query for the latest match answers with the last record that matches, and with none exactly when none does. |
| `Feeds.PushBounded` | crates/openticker-storage/src/operator_read_models.rs:572-577 | Appending and trimming from the front keeps exactly the newest records. |
| `Feeds.LatestIsGreatest` | crates/openticker-storage/src/operator_read_models.rs:597-608 | For pushes in any order, the latest table holds the greatest-id record of each key. |
| `ReadModels.OperatorReadModels.Bootstrap` | crates/openticker-storage/src/operator_read_models.rs:57-96 | Bootstrapping ingests the journal's newest window of events and reconciliations. |
| `ReadModels.OperatorReadModels.PushEvent` | crates/openticker-storage/src/operator_read_models.rs:462-478 | One event goes to the global feed and to the scope and entity indexes. |
| `ReadModels.OperatorReadModels.PushReconciliation` | crates/openticker-storage/src/operator_read_models.rs:538-564 | One reconciliation goes to the feed, the bot index and both latest tables. |
| `ReadModels.OperatorReadModels.RecordEventWrite` | crates/openticker-storage/src/operator_read_models.rs:98-110 | A live write takes the model's next id and is pushed. |
| `ReadModels.OperatorReadModels.RecordReconciliationWrite` | crates/openticker-storage/src/operator_read_models.rs:218-234 | A live write takes the model's next id and is pushed. |
| `ReadModels.IngestingSummarises` | crates/openticker-storage/src/operator_read_models.rs:422-478 | Feed and indexes are exactly the bounded suffixes of what was ingested, whole and per key. |
| `ReadModels.RecentEventsAgree` | crates/openticker-storage/src/operator_read_models.rs:243-245 | After bootstrap and any run of paired writes, recent events within capacity are the journal's, ids included. |
| `ReadModels.ScopedEventsAgree` | crates/openticker-storage/src/operator_read_models.rs:247-252 | Events by scope are a suffix of the journal's answer, and equal it when the bootstrapped journal fitted the window. |
| `ReadModels.EntityEventsAgree` | crates/openticker-storage/src/operator_read_models.rs:254-259 | The same by entity. |
| `ReadModels.BotReconciliationsAgree` | crates/openticker-storage/src/operator_read_models.rs:310-319 | Recent reconciliations agree, and per bot they are a suffix of the journal's answer, equal when the journal fitted. |
| `ReadModels.LatestReconciliationAgrees` | crates/openticker-storage/src/operator_read_models.rs:321-330 | The latest reconciliation of a lane, when held, is the journal's; and when the bootstrapped journal fitted the window it is held exactly if the journal has one. |
| `ReadModels.LatestOfBotAgrees` | crates/openticker-storage/src/operator_read_models.rs:346-352 | The same for the latest reconciliation of a bot. |
| `BarBuilding.BarBuilder.PushTrade` | crates/openticker-data/src/bar_builder.rs:32-86 | One trade moves the builder as `Pushed` says; a rejected trade leaves it unchanged. |
| `BarBuilding.BarBuilder.FlushConfirmed` | crates/openticker-data/src/bar_builder.rs:88-96 | Emits the current bar once and empties the builder. |
| `BarBuilding.RefusalOnInputs` | crates/openticker-data/src/bar_builder.rs:32-50 | A trade is refused for a price that is not positive, then for a negative quantity, and then nothing changes. |
| `BarBuilding.AnswersShowTheBar` | crates/openticker-data/src/bar_builder.rs:50-96 | An accepted trade is answered with a preview of the bar it is now part of, after the confirmation of the bar it closes; a flush confirms the bar under way. |
| `BarBuilding.NameTellsLength` | crates/openticker-core/src/timeframe.rs:19-60 | A timeframe lasts as long as its name says. |
| `BarBuilding.BucketHoldsTime` | crates/openticker-data/src/bar_builder.rs:117-133 | A time lies in its bucket, which starts at a whole multiple of the timeframe, before the epoch too. |
| `BarBuilding.BucketIsMonotone` | crates/openticker-data/src/bar_builder.rs:117-133 | Later times never fall in earlier buckets. |
| `BarBuilding.StreamIsBatch` | crates/openticker-data/src/bar_builder.rs:32-96 | For every sequence of trades and flushes, the confirmed bars plus the current one are the aggregates of the maximal runs of valid trades in one bucket. |
| `BarBuilding.RunsPartitionTrades` | crates/openticker-data/src/bar_builder.rs:32-96 | Those runs split the valid trades without loss or reordering, each within one bucket. |
| `BarBuilding.ExtremesAreExact` | crates/openticker-data/src/bar_builder.rs:110-115 | High and low bound every price of a run and are attained. |
| `BarBuilding.BarsSumUpRuns` | crates/openticker-data/src/bar_builder.rs:32-133 | There is one bar per run; it opens at the first price, closes at the last, spans exactly the prices between, and holds the time of every trade. |
| `BarBuilding.VolumeIsConserved` | crates/openticker-data/src/bar_builder.rs:99-115 | Total bar volume equals the sum of the quantities traded at a positive price. |
| `BarBuilding.OrderedTradesGiveAscendingBars` | crates/openticker-data/src/bar_builder.rs:117-133 | For time-ordered trades without flushes, bar times strictly increase and are multiples of the timeframe. |
| `Indicators.LaneRuntime.EvaluateIndicatorSignals` | crates/openticker-instance/src/lib.rs:170-213 | Signals come from the states before; a preview moves no state, a confirmed evaluation moves each by one step. |
| `Indicators.LaneRuntime.ApplyStateOnlyConfirmedBar` | crates/openticker-lane/src/signals.rs:304-318 | Feeds every engine once and moves the gate exactly when the bar is newer. |
| `Indicators.LaneRuntime.ReplayPage` | crates/openticker-runtime/src/market_data/recovery_state.rs:21-44 | A page is a fold over the bars that pass the gate. |
| `Indicators.RunIsFold` | crates/openticker-lane/src/signals.rs:304-318 | For any engines and any interleaving of previews, live evaluations and paged replays, the states are one fold over the bars evaluated. |
| `Indicators.OnlyOffersMatter` | crates/openticker-instance/src/lib.rs:201-213 | Two runs that offer the same confirmed bars end in the same state, however previews and page boundaries differ. |
| `Indicators.PagesMayBeSplit` | crates/openticker-runtime/src/market_data/recovery_state.rs:21-44 | Splitting a page in two, with a preview between, changes nothing for any engine. |
| `Indicators.DistinctIsAscending` | crates/openticker-lane/src/signals.rs:304-318 | The distinct bars strictly increase from the starting point, and the last of them is the latest time. |
| `Indicators.SurplusIsRepeats` | crates/openticker-lane/src/signals.rs:304-318 | No distinct bar is missed; evaluations exceed distinct bars by exactly the repeats. |
| `Indicators.CleanRunsFoldDistinctBars` | crates/openticker-lane/src/cycle.rs:307-354 | When live cycles complete on newer bars, state and gate are the fold over, and the last of, the distinct bars. |
| `Indicators.FoldIsExactIffNothingRepeats` | crates/openticker-lane/src/cycle.rs:307-354 | The fold over distinct bars describes a lane if and only if no bar passed that was not newer than everything offered before. |
| `Indicators.AbortedCycleFeedsTwice` | crates/openticker-lane/src/cycle.rs:307-354 | A cycle that aborts after evaluating and is retried feeds its bar twice. |
| `RemoteOrders.OneIdentityLeft` | crates/openticker-portfolio/src/orders.rs:74-78 | Sorting and removing repeats leaves one identity exactly when the matches form a one-element set. |
| `RemoteOrders.FailClosed` | crates/openticker-portfolio/src/orders.rs:64-109 | Managed if and only if the identities are exactly one eligible bot on this symbol; external if and only if there are none. |
| `RemoteOrders.UnsafeOnInputs` | crates/openticker-portfolio/src/orders.rs:64-109 | Each unsafe reason if and only if its cause: another symbol, an ineligible bot, or no single identity. |
| `RemoteOrders.ClassifyOne` | crates/openticker-portfolio/src/orders.rs:64-109 | The branch sequence reaches the verdict that the set of identities determines. |
| `RemoteOrders.ClassifyRemoteOpenOrders` | crates/openticker-portfolio/src/orders.rs:54-115 | The three lists are the orders of each verdict, in order. |
| `RemoteOrders.EveryOrderLandsOnce` | crates/openticker-portfolio/src/orders.rs:54-115 | Every order lands in exactly one list, with its multiplicity, and the counts add up. |
| `RemoteOrders.ListsOnInputs` | crates/openticker-portfolio/src/orders.rs:54-115 | Each list holds its orders in the order they came, managed ones with the one bot that owns them, unsafe ones with their reason. |
| `RemoteOrders.SnapshotBlocksIff` | crates/openticker-portfolio/src/exceptions.rs:51-67 | A snapshot raises exceptions if and only if it holds a suspicious order, and every exception names one. |
| `RemoteOrders.OnlyIdentitySetsMatter` | crates/openticker-portfolio/src/orders.rs:74-78 | Order and repetition of local matches never change the outcome. |
| `RemoteOrders.SuspiciousOrderClosesAccount` | crates/openticker-portfolio/src/exceptions.rs:51-67 | One live remote order on a tracked symbol that some local record claims without being exactly one eligible bot's makes tradeable room zero and refuses every open above the tolerance. |
| `Streams.NormalizedSources` | crates/openticker-dataplane/src/registry.rs:63-73 | The list in source order without repeats, of exactly the given sources. |
| `Streams.MergeStreamSpec` | crates/openticker-dataplane/src/registry.rs:43-61 | Merging one more spec gives the merge of the enlarged group: greatest retention, least intervals, any preview, union of sources. |
| `Streams.StreamRegistry.Insert` | crates/openticker-dataplane/src/registry.rs:20-28 | The registry stays the per-key merge of everything inserted. |
| `Streams.StreamRegistry.InsertAll` | crates/openticker-dataplane/src/registry.rs:12-18 | A registry built from a list registers its set of specs. |
| `Streams.StreamRegistry.Specs` | crates/openticker-dataplane/src/registry.rs:31-35 | Lists every merged spec once, in ascending key order. |
| `Streams.MergeIsUnique` | crates/openticker-dataplane/src/registry.rs:43-61 | The merge of a group is determined by the group as a set. |
| `Streams.KeyOrderIsTotal` | crates/openticker-dataplane/src/stream.rs:82-87 | The key order is total, timeframe names included. |
| `Streams.KeysSortByAccountFirst` | crates/openticker-dataplane/src/stream.rs:82-87 | By account, then symbol, then timeframe name; the watchlist before every instance. |
| `Orders.StringLeIsLexicographic` | crates/openticker-dataplane/src/stream.rs:82-87 | Texts are compared where they first part, a beginning coming first. |
| `Streams.ListFromSpecs` | crates/openticker-dataplane/src/registry.rs:12-35 | Building and listing yields a listing of the set of specs. |
| `Streams.ListedFacts` | crates/openticker-dataplane/src/registry.rs:31-35 | A listing names every key of the specs exactly once, ascending, each with the merge of its group. |
| `Streams.SameSpecsSameList` | crates/openticker-dataplane/src/registry.rs:12-82 | Any permutation or repetition of the same specs yields the same list. |
| `LatencyMetric.StepKeepsInvariant` | crates/openticker-dataplane/src/metrics.rs:124-150 | Each atomic step of any thread keeps the invariant and never lowers the maximum. |
| `LatencyMetric.EveryInterleavingIsSound` | crates/openticker-dataplane/src/metrics.rs:124-150 | For any threads, interleaving, spurious failures and stale relaxed reads: the maximum never falls, covers every finished sample and is zero or a sample; total and count are the saturated sums. |
| `LatencyMetric.QuiescentMaximumIsExact` | crates/openticker-dataplane/src/metrics.rs:124-150 | Once every recording has finished, the maximum is exactly the greatest sample. |
| `LatencyMetric.LastIsNewest` | crates/openticker-dataplane/src/metrics.rs:124-150 | The last value is the sample of whichever recording stored its own last, in any interleaving. |
| `LatencyMetric.AloneIsSequential` | crates/openticker-dataplane/src/metrics.rs:124-150 | A recording left to itself does what the sequential method does, cell by cell. |
| `LatencyMetric.AtomicLatencyMetric.RecordDuration` | crates/openticker-dataplane/src/metrics.rs:124-150 | Alone, a recording ends after its spurious failures with the greater of old maximum and sample. |
| `ConfigRuns.RefusedWriteChangesNothing` | crates/openticker-http/src/config_write_handlers.rs:116-260 | A refused write, at whichever stage, leaves directory, bundle, generation and history exactly as they were. |
| `ConfigRuns.CommittedWriteApplies` | crates/openticker-http/src/config_write_handlers.rs:148-260 | A write succeeds exactly when every check passes and the file is written; the directory never changes without the generation moving by one. |
| `ChangeSets.EchoIsIdentity` | crates/openticker-config/src/model.rs:163-197 | Saving an account as the dashboard read it, resolved setting included, changes nothing. |
| `ChangeSets.SubmissionIsHonoured` | crates/openticker-config/src/model.rs:163-197 | An explicit submission setting takes effect if and only if the update does not also flip an inherited snapshot setting away from it. |
| `ChangeSets.FlippedSnapshotOverridesRequest` | crates/openticker-config/src/model.rs:163-197 | With an inherited setting, an update that echoes submission off and switches the snapshot on ends with submission on. |
| `ChangeSets.AcceptedUpdateIsHonoured` | crates/openticker-config/src/model.rs:124-161 | An update that passes validation gets the setting it asked for and changes only budget and cash assets. |
| `SizedReservations.BlockedLedgerSizesNothing` | crates/openticker-portfolio/src/ledger_sync.rs:65-70 | From a blocked ledger every open is sized to zero. |

## Left out

- Connectors, gateway, HTTP routing, dashboard, CLI, SQLite and the file watcher: plumbing around the modelled parts; a connector is any source of pages, fills and errors.
- Rounding of doubles: money is real-valued, so bit-level behaviour is not modelled.
- Reason strings, traces, event text, clocks (`created_at`, `at_ms`, progress timestamps) and log output: presentation only.
- Lanes holding a quantity with unknown entry price, which use another zero threshold: the refinement is for lanes that start flat, where that branch is unreachable.
- Daily-loss accumulation, cooldown timers and the recovery-error marker of a lane: they do not feed back into quantity, entry price or profit.
- Order, fill and position feeds of the read models: the journal deduplicates and sanitises those and the model does not promise agreement. Signal, intent and risk-decision feeds are the event feed's code again without indexes.
- Pruning of the journal after bootstrap: the read models are not told of it, so agreement is stated for runs without it.
- Rendering of documents to text, key order within tables, and maps whose values are structs: the document model is the tree of tables, inline tables, arrays and leaves.
- The directories of accounts, risk profiles and bots are taken to be distinct, and nobody else edits them while a write holds the lock; between operations they may change at will.
- Two bundles count as equal when their values are; the JSON comparison treats non-finite numbers as null.
- Unsigned wrap-around of the config generation after 2^64 applied changes.
- Bundle validation and runtime construction are verdicts of the environment; a prebuilt runtime's journal rows and its disabled pruning are not modelled.
- `advance_lane_polling_once` of the lane crate has no caller in the service; it is modelled in full because the runtime's poll refines it whenever its fetches are answered.
- Warm-up of indicators at startup: the run lemmas start from any engine states and any last dispatched time.
- The average of a latency snapshot: a plain quotient of two modelled cells.
- Trades with NaN price and bucket starts outside the calendar's range in the bar builder.
- ConfigPipeline.HttpState.HandleWrite: does not state the order in which several findings are listed, because only their set decides the outcome.
- Positional deficits of managed positions: another source of blocking exceptions, covered by the arbitrary `others` of `SuspiciousOrderClosesAccount`.
