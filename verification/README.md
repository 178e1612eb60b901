# Bitcoin coordinator: a verified model

The coordinator broadcasts client transactions, builds CPFP and RBF speedups on top of them, funds those
speedups from a chain of UTXOs, and recovers from reorgs, evictions and dead parents. It runs as a tick of six
steps over one persistent store. This project models the store, the six steps and the client calls in Dafny
and proves what every run of them keeps. `dafny verify dfyconfig.toml` checks everything.

## How the model is built

Two forms of every operation stand side by side.

* Functions of a `State` value (`State.dfy`, `Funding.dfy`, `Failures.dfy`, `Dispatching.dfy`, `Engines.dfy`) say
  what an operation computes. All theorems are about them.
* Classes with mutable fields (`Store.dfy`, `Managers.dfy`, `Context.dfy`, `TransactionEngine.dfy`,
  `SpeedupEngine.dfy`, `Coordinator.dfy`) do it the way the repository does: in place, with loops, a recursive
  cascade over the mutable store, and a walk over `replaces` links. Each method is proved equal to its function.

Answers from outside the repository are parameters of a step and otherwise arbitrary (`Oracles.dfy`): the monitor's
verdicts, the node's answers to broadcasts and probes, the transaction builder, the fee estimate, whether the retry
interval has elapsed, and the order in which the backend lists its records.

`Runs.dfy` turns the six steps and the client calls into events. A run is any sequence of events, so a tick is one
special run (`Ticks.TickIsRun`) and a crash between two steps is a run that goes on with another event.

Two kinds of theorem are proved about events. One says what every run keeps: the invariant, the lifecycle, the
reservations, the slot bound, the guard. The other says exactly what one event does, for every store that satisfies the
invariant and every answer from outside, in terms of the stored fields alone:

* steps 1 and 2: `ClientReviews.ReviewClientsStep`, `ReviewOutcomes.ReviewRecord`;
* steps 3 and 4: `SendLaws.OutcomesAre` (who is sent, and what is found), `LifeLaws.DispatchLife` (every record
  afterwards), `PendingLaws.PendingAfterDispatch` (who is pending afterwards, by cause), `ReleaseLaws.ReleasedExactlyWhen`
  (which reservations are free afterwards);
* step 5: `DueLaws.BoostStep`; step 6: `CoverLaws.CpfpStep`; the builder and the funding passes inside both:
  `BuildChoices.BuildOutcome`, `ChoiceLaws`;
* the client calls: `ClientCalls`.

`State.lineage` is a history variable: for every speedup ever built, the chain of speedups it replaced. No step reads
it, and it is a ghost field of the class. It gives RBF ancestry an order that outlives evicted records.

## Hypotheses

The theorems over runs assume `Runs.AdmissibleRun`, event by event:

* H1, fresh txids: whatever the builder answers carries a txid the store has never seen, and a client never registers
  a txid the coordinator built itself. `insert_speedup` overwrites a record with the same txid.
* H2, fresh funding: `add_funding` gets an outpoint never seen before. `append_funding` would reset its mark.
* H3, a consistent node: in one batch of speedups the node does not take a transaction that leads back, by primary
  funding or covered parents through waiting speedups, to a transaction of the same batch that fails
  (`OutcomeLaws.ConsistentOutcomes`, on the outcomes and the store the batch was taken from). It is needed because an
  acceptance writes back a snapshot taken before the result loop: `OutcomeLaws.SpeedupBatchTracks` derives from it that
  every acceptance meets a waiting record, and `Ticks.AcceptanceNeedsLiveRecord` that the lifecycle is kept exactly
  then. No hypothesis about conflicting transactions being mined is needed.
* H4, exact multipliers: the bump multipliers are real numbers and the ceiling is exact.
* H5, a bounded builder: the builder returns a positive vsize of at most 1,000,000, possibly different at each call.
* H6, calls that return: storage, monitor and builder answer without an error.

The settings satisfy `Config.Valid`, a part of what the configuration validation enforces.

## Where the code and its comments differ

The model follows the code in each case. `Scenarios.dfy` drives the cases below from the empty store, event by event, so
each of them is a run of the coordinator.

* The documentation says that a capped boost is saved at the cap. The fee is capped for the estimated size, so a
  transaction that comes out smaller is stored above the cap. `FeeLaws.CapHoldsExactlyWhen` says exactly when it is
  not, and `Scenarios.CapOvershot` builds one that is. The escalation results need only "at least the cap".
* The comment on `settle_failed_dispatch` says that an RBF skips the release of marks. The code releases the inputs
  the RBF claimed itself, and so does the model.
* `rebuild_survivors` never queues a Failed parent itself, but the cascade it runs re-queues the parents of every CPFP
  it takes down without looking at their state. `SurvivorLaws.FailedParentQueued` gives the exact condition,
  `Scenarios.FailedParentIsQueued` a run; step 6 takes every such parent off the list again
  (`Scenarios.FailedParentsArePruned`).
* An RBF that is sized below its predecessor can pay less than the predecessor did.
  `BoostLaws.ReplacementRules` and `FeeLaws.SizeThreshold` say when it does not, `Scenarios.SmallerReplacementUnderpays`
  is a run in which it does.
* The design promises that funding marks are released when a speedup fails. Structural rejections are handled before any
  outcome of sending, and an acceptance writes back the snapshot its batch was taken with, so a mark that was just released can be set
  again. `ReleaseLaws.ReleasedExactlyWhen` says exactly when; `Scenarios.ChangeLeaks` is a run in which a CPFP over the
  weight limit fails and the change it was to spend stays reserved for nobody.
* Slots can exceed the maximum, by exactly the confirmations of unreplaced speedups that reorgs take back
  (`SlotReviews.ReviewSlotsExactly`, `SlotBounds.SlotBound`); `Scenarios.ReorgOverfillsSlots` is such a run.
* A guarded speedup is not failed by its own input-consumed verdict before its deadline, but it falls with another
  transaction of the batch that it depends on (`GuardLaws.GuardedVerdict`, an if and only if);
  `Scenarios.GuardedSpeedupFalls` is such a run.

## Model

| member | source | states |
|---|---|---|
| Runs.RunKeepsInv | src/coordinator.rs:121-140 | Under H1 to H3 every run of the six steps and the client calls, in any order and with crashes between steps, keeps the full invariant |
| Runs.NoDoubleReservation | src/core/funding.rs:74-143 | In every reachable state two speedups that are not Failed share an input only along one RBF lineage, and then the older one is being replaced |
| Runs.NothingUsedIsHandedOut | src/core/funding.rs:74-127 | `get_funding` and `get_combine_funding` never hand out an outpoint a non-Failed speedup uses, and never the same one twice in a row |
| Runs.WaitingHasNoLiveSuccessor | src/helper.rs:207-219 | A ToDispatch member of an RBF lineage has only Failed successors |
| Runs.LineageOwnership | src/engines/speedup_engine.rs:527-586 | Every speedup has one or two inputs, a second one is user-provided, an RBF's inputs are its predecessor's followed by its own, and no input has two claimers along a live lineage |
| Runs.OnePrebuiltAtATime | src/engines/speedup_engine.rs:215-221 | At most one speedup is ToDispatch without ever having been broadcast |
| Runs.QueueIntegrity | src/core/storage.rs:638-769 | The funding list is duplicate-free and in bijection with the funding records |
| Runs.PendingIntegrity | src/core/storage.rs:336-486 | The pending list holds stored NeedsSpeedup records once each, parents lists are duplicate-free, every non-terminal speedup is listed exactly once |
| Runs.EvictionSparesCoveredParents | src/core/storage.rs:283-327 | Eviction never removes a NeedsSpeedup parent that any non-terminal CPFP in the store covers |
| ReviewLaws.ReviewActiveKeepsInv | src/engines/transaction_engine.rs:23-50 | Step 1 keeps the invariant for every chain answer |
| ReviewLaws.ReviewSpeedupsKeepsInv | src/engines/speedup_engine.rs:63-133 | Step 2 keeps the invariant although every speedup is judged against one stale snapshot |
| DispatchLaws.DispatchPendingKeepsInv | src/engines/transaction_engine.rs:54-79 | Step 3 keeps the invariant for every node behaviour |
| OutcomeLaws.DispatchSpeedupsKeepsInv | src/engines/speedup_engine.rs:138-190 | Step 4 keeps the invariant under H3, with cascades and snapshot writes inside one batch |
| OutcomeLaws.SpeedupBatchTracks | src/engines/speedup_engine.rs:159-177 | Under H3 every acceptance of a batch meets a waiting record, and every waiting record ends accepted, Failed or waiting as the outcomes and the first store say, whatever their order |
| OutcomeLaws.ClientBatchTracks | src/engines/transaction_engine.rs:176-204 | The same for a batch of client transactions, with no hypothesis on the node |
| CreationLaws.BoostKeepsInv | src/engines/speedup_engine.rs:195-389 | Step 5 keeps the invariant under H1; `DueLaws.BoostStep` says when it acts and what it adds |
| DueLaws.BoostStep | src/engines/speedup_engine.rs:195-389 | Step 5, exactly: it acts if and only if nothing failed before it in the tick, nothing waits, and the last live speedup was sent long enough ago and is priced below the cap; then it adds one boost of that speedup (a replacement if and only if all slots are taken) with one more bump, paying its rate and the lift of the chain, or says why it cannot; it adds nothing else |
| CreationLaws.CreateKeepsInv | src/engines/speedup_engine.rs:394-504 | Step 6 keeps the invariant under H1 |
| CoverLaws.CpfpStep | src/engines/speedup_engine.rs:394-504 | Step 6, exactly: it acts if and only if a pending parent is on the node, nothing waits and a slot is free; then it adds one CPFP that covers the first such parents, as many as fit the weight limit and at least one, and takes exactly these and the prunable ones off the pending list, or says why it cannot; otherwise it only prunes |
| ClientCalls.RegisterStep | src/coordinator.rs:350-408 | A known txid changes nothing; a new one adds one waiting record with its target height and price, and queues it when it needs a speedup |
| ClientCalls.AddFundingStep | src/core/funding.rs:43-57 | Below the minimum only news; otherwise one unspent user record at the end of the queue |
| ClientCalls.CancelStep | src/coordinator.rs:412-483 | A record goes if and only if it is a listed client transaction still to be sent; it leaves the pending list too; every other record stays, and every other listed txid gets news |
| CreationLaws.RegisterOpKeepsInv | src/coordinator.rs:350-408 | Registration keeps the invariant |
| CreationLaws.AddFundingKeepsInv | src/coordinator.rs:272-281 | Adding funding keeps the invariant under H2 |
| CreationLaws.CancelKeepsInv | src/coordinator.rs:412-459 | Cancelling any list of txids keeps the invariant |
| SendLaws.OutcomesAre | src/core/dispatcher.rs:88-195 | Steps 3 and 4: an outcome exists for a stored record if and only if it is selected (waiting, not paced out, and a listed speedup or a listed client transaction whose target height has come) and it is what the dispatcher finds: invalid, first dead parent, or sent once all tracked parents are there |
| SendLaws.DispatchedExactlyWhen | src/engines/transaction_engine.rs:54-79 | Who has an outcome, as an if and only if, and that it has exactly one |
| SendLaws.EarlyStays | src/helper.rs:222-224 | Before its target height a client transaction is not sent and its record does not change |
| SendLaws.SkipsBoostExactlyWhen | src/engines/speedup_engine.rs:152-189 | Step 4 reports a failed boost if and only if one of the speedups it took up is a boost and has settled Failed |
| LifeLaws.DispatchLife | src/engines/common.rs:127-310 | Steps 3 and 4: every field of every record afterwards, whatever the order of the outcomes: live with this height, the recorded fee and no guard; settled Failed at this height; one more retry; or unchanged |
| PendingLaws.PendingAfterDispatch | src/engines/common.rs:254-471 | Steps 3 and 4: exactly who is pending afterwards, by cause: funding gone, dead parent or external input gone for a first CPFP, covered by a speedup that falls with another one before its own verdict; nothing for malformed ones and spent retries; earlier entries keep their order at the end |
| PendingLaws.FundingGoneRequeues | src/engines/common.rs:273-280 | A waiting CPFP whose broadcast fails with a funding input gone and no guard gives back every parent it covers |
| Ticks.TickIsRun | src/coordinator.rs:121-140 | A tick is a run of six events in the pipeline order, step 5 skipping exactly when step 4 saw a boost fail |
| Ticks.SentWasStored | docs/design.md:26-31 | Every speedup a tick hands to the node was stored, as the same transaction, before that tick began |
| Ticks.LifecycleSafety | src/helper.rs:173-205 | Each event moves a record along one allowed edge, except that a speedup review may take Confirmed to Failed; terminal states are never left; the settled height is set exactly in terminal states; broadcast states have a broadcast height |
| LifecycleLaws.ReviewSpeedupMoves | src/engines/speedup_engine.rs:73-130 | Reviewing one speedup follows one allowed edge on every record it touches and arms a guard only where there is none |
| ClientReviews.ReviewClientsStep | src/engines/transaction_engine.rs:23-174 | Step 1, exactly: a record is evicted if and only if it settled long enough ago and no speedup is owed to it; a listed client transaction in flight becomes what the chain's answer says, field by field; no other record changes; stuck and evicted news if and only if |
| ReviewOutcomes.ReviewRecord | src/engines/speedup_engine.rs:63-133 | Step 2, exactly: every listed speedup becomes what its own answer says, field by field, unless it is being replaced and not found, and is then settled Failed at this height when a speedup that replaced it finalizes in the same review |
| ReviewOutcomes.ReviewOutcome | src/engines/speedup_engine.rs:63-133 | Where a review leaves every speedup: where its own chain answer takes it, and from ToDispatch or InMempool to Failed exactly when a speedup that replaced it finalizes in the same review |
| ReviewOutcomes.TwoEdgesExactlyWhen | src/engines/speedup_engine.rs:73-119 | A review leaves the allowed edges exactly for a Confirmed speedup that a reorg returns and whose replacement finalizes in the same review |
| LifecycleLaws.EdgePathIsClosure | src/helper.rs:173-205 | The closure of the allowed edges is "only terminal states are never left" |
| Ticks.SettledForever | src/helper.rs:194-202 | Finalized and Failed are never left as long as the record is stored, over whole runs |
| Ticks.AcceptanceNeedsLiveRecord | src/engines/common.rs:164-226 | The unchecked snapshot write of an acceptance follows the lifecycle if and only if the stored record has not settled |
| Ticks.NewRecords | src/engines/speedup_engine.rs:662-702 | A record appears only by registration or as a speedup that has never been sent |
| Ticks.GuardIsAnchored | src/core/storage.rs:179-209 | Once armed, the deadline does not move over a whole run until the transaction is accepted or found confirmed |
| Ticks.EventKeepsGuard | docs/design.md:81-99 | A guard is armed only by a review, with the review's deadline, is dropped only by going live, and a live transaction has none |
| GuardLaws.GuardedVerdict | src/engines/common.rs:254-289 | Over a dispatch step: a guarded transaction whose outcome is an input-consumed verdict below its deadline keeps its guard, and still waits with one more retry if and only if no other failing transaction of the batch cascades to it; a client transaction always does |
| GuardLaws.GuardOutlastsVerdicts | docs/design.md:85-99 | Over whole runs: however many input-consumed verdicts come below the deadline, the transaction waits with the same deadline, and each verdict counts one retry |
| GuardLaws.WaitingFailsExactlyWhen | src/engines/common.rs:127-160 | A waiting record is settled Failed by an event if and only if a failing outcome of that event is its own or cascades to it |
| GuardLaws.ConsumedFailsExactlyWhen | src/engines/common.rs:256-289 | An input-consumed outcome fails its own transaction if and only if no guard holds at that height |
| Scenarios.GuardedSpeedupFalls | src/engines/common.rs:318-356 | A run in which a guarded speedup falls with the speedup that funds it |
| SlotBounds.SlotBound | src/engines/speedup_engine.rs:257-262 | Over every run, unreplaced ToDispatch and InMempool speedups never exceed the configured maximum plus the confirmations that reorgs took back |
| SlotReviews.ReviewSlotsExactly | src/engines/speedup_engine.rs:63-133 | The slots taken after a review are those of the occupants that stay and of the confirmations it takes back, and no others |
| Scenarios.ReorgOverfillsSlots | src/engines/speedup_engine.rs:82-87 | A run that takes two slots where the maximum is one, after one lost confirmation |
| SlotLaws.SettleSlots | src/engines/common.rs:446-464 | A failing RBF gives its slot to at most the predecessor it unmasks |
| SlotBounds.LiveCount | src/engines/speedup_engine.rs:741-745 | When nothing waits, the engine's count of live speedups is the number of slots taken |
| ReleaseLaws.ReleasedExactlyWhen | docs/design.md:127 | A speedup that fails in step 4 leaves each input it reserved free, except if and only if the speedup whose change the input is was accepted in the same batch after the last outcome that settled the failing one |
| Scenarios.ChangeLeaks | src/engines/common.rs:164-190 | A run in which a failed speedup's input stays reserved although nothing uses it |
| CascadeLaws.CascadeIsClosure | src/engines/common.rs:313-356 | The cascade settles exactly its root and the waiting speedups reachable from it by "primary funding txid or listed parent", and changes no other record's state, although each level loops over a stale snapshot |
| CascadeLaws.CascadeIdempotent | src/engines/common.rs:318-356 | Repeating a cascade at the same height changes no record, mark, pending entry or news |
| CascadeLaws.FailAndCascadeKeepsInv | src/engines/common.rs:431-471 | A cascade from any waiting root frees only funding nobody else relies on |
| Failures.FailAndCascade | src/engines/common.rs:318-356 | The recursion terminates with no acyclicity assumption and takes the root out of the waiting set |
| SurvivorLaws.SurvivorRebuild | src/engines/common.rs:373-429 | After a first CPFP fails: it is Failed, its funding is free, every surviving parent is pending exactly once, earlier entries keep their order |
| SurvivorLaws.SurvivorsQueued | src/engines/common.rs:384-414 | Exactly who is pending afterwards: old entries, surviving parents, and parents of speedups the cascade took down |
| SurvivorLaws.FailedParentQueued | src/core/storage.rs:468-486 | A Failed parent is newly queued if and only if the cascade took down a speedup that covers it |
| SurvivorLaws.CoveredParents | src/engines/common.rs:373-429 | For a CPFP that spends every parent it covers: each covered parent that has not settled Failed is pending exactly once, a Failed one newly only through the cascade |
| Scenarios.FailedParentIsQueued | src/engines/common.rs:318-429 | A run in which a Failed parent is queued again, and step 6 prunes it |
| Scenarios.FailedParentsArePruned | src/core/storage.rs:435-465 | Step 6 leaves no Failed parent pending, in any store that satisfies the invariant |
| ReviewLaws.WalkSettles | src/engines/speedup_engine.rs:705-738 | The replaced-chain walk settles Failed exactly the ToDispatch and InMempool members of the chain and leaves every other record as it is |
| ReviewLaws.WalkDescends | src/engines/speedup_engine.rs:711-722 | `replaces` names an earlier-created record, so the walk ends |
| ChainLaws.ChainCollapses | src/core/storage.rs:698-769 | Any number of chained speedups finalizing in order leave only the last change, in the slot of the UTXO the chain started from; every other record keeps content and position |
| ChainLaws.ReviewCollapsesChain | src/engines/speedup_engine.rs:112-119 | The same for one review whose chain answers settle the chain, whatever it does to other speedups |
| ChainLaws.ListOrderFinalizes | src/engines/speedup_engine.rs:63-73 | The order of the SpeedupList is an order in which a chain may finalize |
| FinalizeLaws.SwapShape | src/core/storage.rs:719-767 | The consumed records are replaced by one record for the change at the first consumed slot, with the spent flag carried over |
| BatchLaws.BatchesAreGood | src/core/dispatcher.rs:55-83 | Batches concatenate to a prefix, are at most `max_batches`, non-empty, within the weight limit or singletons, greedily maximal, and complete when fewer than the maximum |
| BatchLaws.BatchByWeight | src/core/dispatcher.rs:55-83 | The loop computes those batches |
| BuildLaws.BuildSpeedupContract | src/engines/speedup_engine.rs:514-614 | A failed build leaves every mark as it was; a successful one claims exactly the added inputs, each unclaimed before, leaves at least the dust limit, and pays for a size that covers the transaction |
| BuildChoices.BuildOutcome | src/engines/speedup_engine.rs:514-614 | A build ends with the inputs it started from, or, when these ran short at a measured size and are one speedup's change, with the first unspent user record added, and then they pay; it fails only when everything it could use ran short, or nothing was on offer, and news say so |
| ChoiceLaws.TipChosen | src/core/funding.rs:79-98 | While a listed speedup is on the node, not being replaced and unspent, the change of the last such speedup is handed out and marked |
| ChoiceLaws.RecordChosen | src/core/funding.rs:100-108 | Otherwise the first unspent record of the queue, whatever its origin, which is reported |
| ChoiceLaws.NothingChosen | src/core/funding.rs:74-112 | There is no funding if and only if no listed speedup is open and every record is spent |
| ChoiceLaws.CombineChosen | src/core/funding.rs:116-127 | The second input is the first unspent user-provided record |
| ChoiceLaws.NothingToCombine | src/core/funding.rs:116-127 | There is no second input if and only if every user-provided record is spent |
| BuildLaws.GiveBackRestores | src/core/funding.rs:129-137 | Releasing what a build claimed restores the state exactly |
| BuildLaws.ChosenIsOnOffer | src/core/funding.rs:74-112 | `get_funding` picks an unspent record or an unspent, listed chain tip, and says truthfully whether a speedup produced it |
| BoostLaws.ReplacementPaysItsWay | src/engines/speedup_engine.rs:294-357 | Rules 3 and 4 of BIP 125 for every RBF built in a reachable state: sized for at least its predecessor it pays more, capped or not, and uncapped 1 sat per own vbyte on top; capped ones meet each rule exactly when the cap budget does; smaller uncapped ones pay more while the saved bytes cost no more than the lift |
| FeeLaws.ReplacementPays | src/core/fee.rs:98-172 | The uncapped case composed from the rate floor, the chain lift, the package formula and the floor division in the stored rate |
| FeeLaws.SmallerReplacementPays | src/core/fee.rs:134-172 | Rule 3 for an uncapped replacement smaller than its predecessor |
| FeeLaws.CappedReplacement | src/core/fee.rs:159-171 | Rules 3 and 4 for a capped replacement, each as an if and only if |
| FeeLaws.SizeThreshold | src/core/fee.rs:134-172 | For a tip, a rate and an estimate that the cap allows: all uncapped replacements meet rule 4 (and rule 3) if and only if the least possible fee does |
| Scenarios.SmallerReplacementUnderpays | src/core/fee.rs:134-172 | A run in which an uncapped RBF pays less than half of what it replaces |
| BoostLaws.BoostEscalates | src/core/fee.rs:95-100 | Every boost stores a higher package rate than its tip; a capped one reaches the cap; at equal sizes none exceeds it |
| BoostLaws.AtMostMaxBoosts | src/engines/speedup_engine.rs:243-246 | In any run from a reachable state at most `max_feerate_sat_vb` boosts build on one another |
| BoostLaws.CappedIsNeverBoosted | src/engines/speedup_engine.rs:243-246 | A speedup stored at or above the cap is never the tip of a boost |
| FeeLaws.StoredRateReaches | src/core/fee.rs:42-60 | The stored package rate reaches the requested rate, or the cap when capped |
| FeeLaws.CapIsExact | src/core/fee.rs:159-171 | At equal estimated and final size the rate is at most the cap, with equality when capped |
| FeeLaws.CapHoldsExactlyWhen | src/core/fee.rs:159-171 | For a capped fee the stored rate equals the cap if and only if the over-estimated bytes at the cap rate cost less than 1 sat per package vbyte |
| Scenarios.CapOvershot | src/core/fee.rs:159-171 | A run that stores a package rate of 183 where the maximum is 100 |
| Stores.Store.EvictStaleTxs | src/core/storage.rs:283-327 | The loop evicts exactly the stale terminal records that are not protected parents |
| Stores.Store.GetSpeedupsOrdered | src/core/storage.rs:351-361 | Records in list order, missing ones skipped |
| Stores.Store.GetPendingParents | src/core/storage.rs:435-465 | Returns the broadcast parents in order and prunes Failed and missing ones |
| Stores.Store.ReplaceFundingOnFinalize | src/core/storage.rs:698-769 | In-place swap of consumed records for the change |
| Managers.FundingManager.GetFunding | src/core/funding.rs:74-112 | The two passes compute the choice that `ChoiceLaws` describes and mark it spent |
| Managers.FundingManager.ReleaseMarks | src/core/funding.rs:130-137 | Clears the listed marks one by one |
| Managers.ChainFeeDiff | src/core/fee.rs:104-126 | The accumulating loop equals total vsize times the lift over the last member's rate |
| Managers.GetNetworkFeeRate | src/core/fee.rs:64-88 | The rate stays between the safe minimum and the cap, with news when clamped |
| Contexts.EngineContext.Dispatch | src/core/dispatcher.rs:88-195 | Validating first and sending afterwards yields the specified outcomes in order |
| Contexts.EngineContext.FailedParent | src/core/dispatcher.rs:123-131 | First tracked parent that has settled Failed |
| Contexts.EngineContext.FailAndCascade | src/engines/common.rs:318-356 | The recursion over the mutable store terminates and computes the cascade |
| Contexts.EngineContext.RebuildSurvivors | src/engines/common.rs:376-429 | Classify, settle, deduplicate, prepend |
| TransactionEngines.TransactionEngine.ReviewActive | src/engines/transaction_engine.rs:23-174 | Step 1 in place |
| TransactionEngines.TransactionEngine.DispatchPending | src/engines/transaction_engine.rs:54-204 | Step 3 in place, as `SendLaws.OutcomesAre` and `LifeLaws.DispatchLife` describe it |
| SpeedupEngines.SpeedupEngine.ReviewSpeedups | src/engines/speedup_engine.rs:63-133 | Step 2 in place; keeps the invariant |
| SpeedupEngines.SpeedupEngine.RemoveReplacedRbf | src/engines/speedup_engine.rs:705-738 | The unbounded walk ends on a well-formed store and computes the specified settlement |
| SpeedupEngines.SpeedupEngine.DispatchPendingSpeedups | src/engines/speedup_engine.rs:138-190 | Step 4 in place, as `SendLaws`, `LifeLaws.DispatchLife` and `PendingLaws.PendingAfterDispatch` describe it; reports a boost that settled Failed |
| SpeedupEngines.SpeedupEngine.BuildLoop | src/engines/speedup_engine.rs:545-613 | The loop terminates and computes the specified build |
| SpeedupEngines.SpeedupEngine.CreateCpfpBatch | src/engines/speedup_engine.rs:394-504 | Step 6 in place, as `CoverLaws.CpfpStep` describes it |
| Coordinators.Coordinator.Tick | src/coordinator.rs:121-140 | The pipeline in place, from any store that satisfies the invariant (every reachable one does); keeps it on admissible input |
| Coordinators.Coordinator.CancelTransactions | src/coordinator.rs:412-483 | Classifies all requests first, then removes exactly the eligible ones from the list and the store |

## Left out

- The monitor, the Bitcoin client, RPC and the protocol builder: foreign code, present only as oracles. Value conservation across the builder is not claimed.
- Scripts, keys, signatures, hashes and the free-text context of a record: only txid, inputs, output amounts, vsize and weight are kept. The context strings and reasons inside news are dropped.
- Storage keys and serialisation: maps and sequences instead. The model keeps one store; concurrent writers are outside the documented assumptions.
- Error returns of storage, monitor and builder (H6): a builder error inside `build_speedup` leaves marks set in the original, and a run that stops in the middle of a step is not modelled; one that stops between steps is.
- Machine integers and f64: amounts and heights are unbounded, multipliers are exact reals.
- News: a set of items. Acknowledging, expiring and filtering them changes what a client reads, and no step reads news.
- Retry pacing by wall clock: a boolean input of the dispatch steps.
- `clear_funding`, which empties the funding list and is not called by the coordinator; `has_funding`, `get_transaction` and `get_news`, which only read; registration with the monitor, which writes nothing to the store.
- Configuration loading: only the bounds in `Config.Valid` are used.
- SurvivorLaws.CoveredParents: assumes that the builder spends an output of every parent it covers; the builder is foreign code.
- Straight-line methods of the classes (state updates, marks, registration) are proved like the others but have no row of their own.
