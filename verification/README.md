# Verified models of the trading core

Dafny models of the parts of the repository that decide where money goes and whether an order is
sent, with proofs of what they keep. Every model follows the code branch by branch; where the code
and its comments disagree the code is followed and the difference is listed below.

| file | what it models |
|---|---|
| `Money.dfy`, `MoneyStore.dfy` | balances and reservation rows: reserve, consume, release, expire, attested credit, as functions for whole runs and as the object that updates the tables |
| `MoneyKernel.dfy` | the kernel in front of them, its bounded retry, and the events it emits |
| `Projection.dfy`, `ProjectionEngine.dfy` | the balance projection, recursive corrections, and the checkpointed engine, one call after another |
| `ProjectionRuns.dfy` | the same engine with overlapping calls, rebuilds that die, and events that appear late |
| `ProjectionWrites.dfy` | the engine's second write, into the live money table |
| `EventStore.dfy`, `Outbox.dfy` | the append-only store and the at-least-once drain |
| `ExecutorSteps.dfy` | submit, reconcile and cancel as a machine whose steps lie between awaits |
| `ExecutorSafety.dfy` | what every interleaving of that machine keeps |
| `Executor.dfy` | the executor as an object, each method proved to be a complete run of the machine |
| `ExecutorAnswers.dfy` | what each answer to a request comes to over runs, and which answers give reservations back |
| `ExecutorFills.dfy` | fill accounting over acknowledgements, polls and crashes, one operation after another |
| `ExecutorAccounts.dfy`, `ExecutorTotals.dfy` | the same accounting over every interleaving of that machine, and when its total is right |
| `ExecutorWitnesses.dfy` | runs from empty tables in which a promise of the code's comments is broken |
| `OrderBuilder.dfy`, `RiskGate.dfy`, `G4.dfy` | clamping an order into its permit, gating and reserving, and the step around both |
| `LiveAccounting.dfy`, `Pipeline.dfy` | exposure booked per step, the tracker, and runs of the pipeline |
| `Calibration.dfy` | isotonic regression by pooling adjacent violators, over `real`, with a stable sort |
| `EditDistance.dfy`, `JsonScan.dfy` | the command suggestion and the JSON object scanner |
| `Sizing.dfy` | expected value and fixed-point Kelly sizing |
| `BigInt.dfy`, `MapSums.dfy`, `Wrappers.dfy` | truncating division, sums over maps and sequences, `Option` |

Each database transaction is one atomic step that commits or rolls back; a crash can fall between any
two of them. Clocks, the venue, the signer, generated ids and the schema checks of fields that are not
modelled are parameters with arbitrary values. Money is in integer base units (one millionth of a dollar);
calibration and exposure are over `real`. Sizes, prices and capital are taken to convert to base units
exactly; an exposure that does not is the exception the code throws.

## Where the code is not what its comments say

- A claim writes a recovery row that refers to the order's own row
  (migrations/0005_balance_store_event_sink_recovery_supervisor.sql:53), and nothing in the program writes
  `orders`. So an order reaches the venue only if something else has recorded it
  (`ExecutorSafety.UnlistedNeverSent`); on the program's own tables every claim ends ATOMIC_CLAIM_FAILED. The runs
  named below record the order first.
- "The same order is NEVER submitted twice" (src/pm/executor/src/index.ts:7-10) holds exactly for orders
  that carry a permit id. Two submits of an order without one, under two permits, can both pass the seen
  log before either writes it, once the first one's lease has lapsed
  (`ExecutorSafety.AtMostOncePerOrderIff`).
- The fill counter is seeded after the acknowledged fill is consumed, and raised before a polled fill is
  consumed. No crash is needed for the two to disagree: a poll counted after the request and before the
  seeding consumes the fill a second time. For every order, every set of reservations and every interleaving,
  the cash consumed is the highest cash counted, plus what was seeded late, less what reservations refused, plus
  what went astray, less what stopped operations still meant to do (`ExecutorAccounts.RunAccounts`). What goes
  astray is cash assigned to several of the reservations or to none, and cash others consume; it is nothing
  under one hypothesis: every permit the order is sent under names one of the reservations, no other permit names
  any, and nobody else consumes from them (`ExecutorTotals.TiedTotalRightIff`). Then, with every operation ended
  and nothing refused, the total is right exactly when nothing was seeded late, and a run from empty tables in
  which it is not is `ExecutorWitnesses.FillConsumedTwice`.
- The counter belongs to the order and not to the request: an order sent again finds what its earlier requests
  left, and only what rises above that is consumed. The new reservation ends at what the new request filled
  if and only if the count it found is no more than its acknowledgement, or no later report is
  (`ExecutorFills.CarriedCounterIff`).
- A reservation expires a minute after it is granted, wherever its order stands. A polled fill is consumed if and
  only if the reservation is live, unexpired and has room (`ExecutorFills.PollAsks`), a sweep leaves it live if and
  only if its time has not come (`MoneyStore.SweptBacksIff`), after that it is never consumed from again
  (`Money.ReleasedForGood`), and a run in which a live order is filled with nothing behind it is
  `ExecutorWitnesses.LiveOrderUnbacked`.
- A crash between consuming and seeding leaves the acknowledged cash plus the highest report less what was
  refused, which is right exactly when the refusals make up the smaller of the two
  (`ExecutorFills.DoubleCountIff`; for one later report `ExecutorFills.OneReportDoubleCountIff`: when both
  fit, if one of them is nothing; when they do not, if the report is no more than was acknowledged). A
  crash between counting and consuming loses the rise (`ExecutorFills.LostFillIff`).
- A ledger row stays resolved when its order is sent again after a definitive reject. The order is asked
  about afterwards if and only if its row was absent or unresolved (`ExecutorFills.ResentIsQueriedIff`), no run asks
  about a resolved one again (`ExecutorWitnesses.ResolvedNeverQueried`), and a run that sends an order twice, has it
  live at the venue, and never asks is `ExecutorWitnesses.ResentGoesUnasked`.
- A cancel request writes the state CANCEL_UNKNOWN into an unresolved row, which the check on
  migrations/0005_balance_store_event_sink_recovery_supervisor.sql:56 does not admit: the write throws. So a
  cancel that lease and mode allow reaches the venue if and only if the order's row is absent or already
  resolved (`Executor.Executor.Cancel`), and an order live at the venue whose row is unresolved cannot be
  cancelled (`ExecutorWitnesses.LiveOrderUncancelled`).
- Any operation of the same holder gives up the executor lease, whichever took it
  (migrations/0007_permit_order_binding.sql:50-60).
- `MoneyKernel.release` moves cash past the reservation rows, which breaks the coupling
  (`Money.KernelReleaseKeepsCouplingIff`, `Money.KernelReleaseLetsAConsumeSkip`). The risk gate would use it for
  a decision that fails its schema, but no decision and no permit it builds does (`RiskGate.MintedPasses`).
- The reservation manager emits no events, so its successful consumes, and its releases of anything, never
  reach the projection (`MoneyKernel.ManagerConsumeSourcedIff`, `MoneyKernel.ManagerReleaseSourcedIff`). Nor does
  the only inflow: the projection does not know the event an attested credit writes
  (`MoneyKernel.CreditSourcedIff`).
- The intent guard and the open-reservation limit count only ACTIVE rows. A second reservation of an intent
  is refused as a duplicate if and only if the first one's row is still ACTIVE
  (`Money.SecondReservationRefusedIff`), and for every intent a run leaves two live reservations of it
  (`Money.IntentReservedTwice`). The limit bounds no account's live reservations: any number of them can be live
  at once (`Money.AnyNumberLive`).
- Beside its own table the projection adds the events' effects to `balance_entries`, the live money table
  (src/pm/ledger/src/pg-projection-engine.ts:332-343), where the reservation has already been made. A batch leaves
  live money coupled to the reservations if and only if its events that move available cash leave, for every
  account, committed cash as it was and available cash not below nothing (`ProjectionWrites.BatchKeepsCoupledIff`);
  the event of a reservation does so only if the reservation is for nothing
  (`ProjectionWrites.ReservationEventDecouplesIff`). A rebuild truncates that table too, which is harmless if and only
  if there is no reservation (`ProjectionWrites.TruncateKeepsCoupledIff`).
- The projection reads checkpoint and log before its transaction begins, and a rebuild is three commits. Two
  overlapping calls count the shorter batch twice (`ProjectionRuns.OverlapInStepIff`); a rebuild that dies after
  its truncation loses everything up to the checkpoint, which later batches do not bring back
  (`ProjectionRuns.TruncatedInStepIff`). Its options allow a start above the checkpoint
  (`ProjectionRuns.LateStartInStepIff`), and the log can gain an event below it
  (`ProjectionEngine.LateAppendAgreesIff`). In each case the table stays right exactly when the events
  concerned move no balance. A bound of 0 means no bound, and the store's replay ignores a limit.
- The outbox checkpoint is only ever updated, and no migration inserts its row; without the row every
  drain starts over (`Outbox.UnseededRedelivers`). With the row, an event that becomes visible behind the
  checkpoint is never delivered (`Outbox.LateEventDeliveredIff`).
- The event store's idempotency is by event id, not by aggregate and sequence.
- A failure that leaves it open whether anything was sent is returned as SUBMISSION_UNKNOWN
  (src/pm/executor/src/index.ts:527-541), but when the adapter called it not sent, the seen log and the ledger row both stay
  at SUBMITTING (`ExecutorAnswers.OpenThenDuplicate`).
- The edge "in basis points" of src/pm/risk/src/sizing-engine.ts:104-107 is in millionths of one: for a price of at most a
  dollar and a threshold below one hundred per cent, the threshold refuses exactly the expected values that are not
  positive, whatever it is set to (`Sizing.ThresholdIsSign`).
- The sizing engine's caps read a basis point as a millionth, the risk gate as a ten-thousandth: each cap of the
  engine is the hundredth part of the gate's, and equal to it if and only if both are nothing
  (`Sizing.CapIsHundredth`).
- "The PAV fit is constant per block" (src/pm/intelligence/src/calibration.ts:43-47), but the map built from it gives
  a point inside a block after the first the level of the block before. It gives a data point its own block's level
  if and only if the block is the first, the point is the block's last, or the block before has the same level
  (`Calibration.UntiedServesIff`; with ties `Calibration.ServesOwnBlockIff`). Three points on which it does not are in
  `Calibration.MapMissesFit`.
- The scanner returns a text that begins with a brace as it is, tail included
  (`JsonScan.ExtractsPrintedIff`).

## Model

| member | source | states |
|---|---|---|
| `Money.RunCoupled` | src/pm/risk/src/reservation-manager.ts:136-329 | in every state any run of reserve, consume, release, expire, credit and rollback reaches, each account's committed cash is the sum of what its live reservations still hold; rows stay within amount, one active row per intent, at most 16 active rows per account |
| `Money.ConsumeNeverSkips` | src/pm/risk/src/reservation-manager.ts:211-229 | in every reachable state a consume that reports success has also spent the cash: its guarded update, whose row count is never read, is never skipped; a refusal changes nothing |
| `Money.ReleaseNeverSkips` | src/pm/risk/src/reservation-manager.ts:276-315 | in every reachable state a release succeeds exactly for live rows, moves the whole remainder, and never finds it negative |
| `Money.RunConserves` | src/pm/risk/src/reservation-manager.ts:136-357 | available plus committed plus total consumed changes over any run by exactly the attested credits, which are never negative |
| `Money.ReachableBooksBalance` | src/pm/risk/src/funder-cash.ts:189-261 | from empty tables: wealth equals credits, balances are never negative nor above the credits, every terminal row has consumed plus released equal to its amount |
| `Money.CreditNeverLowers` | src/pm/risk/src/funder-cash.ts:111-165 | a credit sets the total to the attested figure, never lowers it, leaves committed cash and every other account alone, and is refused as a decrease exactly when it would be one |
| `Money.RunAdvancesRows` | src/pm/risk/src/reservation-manager.ts:199-243 | rows are never deleted, their figures only rise, and a terminal row never changes again |
| `Money.ReserveThenReleaseRestores` | src/pm/risk/src/reservation-manager.ts:246-329 | releasing a fresh reservation restores every balance; a second release and a later consume are refused and change nothing |
| `Money.ReservedIff` | src/pm/risk/src/money-kernel-pg.ts:199-519 | a reservation is granted exactly when every other condition holds and no row of its intent, in any account, is ACTIVE; a request that is otherwise in order is refused as a duplicate exactly when one is |
| `Money.SecondReservationRefusedIff` | src/pm/risk/src/money-kernel-pg.ts:270-284 | a second reservation of an intent is refused as a duplicate if and only if the first one's row is still ACTIVE |
| `Money.IntentReservedTwice` | migrations/0012_reservations_active_intent_unique.sql:7-9 | for every intent a run of four transactions from empty tables leaves two live reservations of it |
| `Money.AnyNumberLive` | src/pm/risk/src/money-kernel-pg.ts:312-323 | for every account and every number a run leaves that many live reservations of the account |
| `Money.ReleasedForGood` | src/pm/risk/src/reservation-manager.ts:199-205 | once released or expired a reservation is never consumed from again, in no run |
| `Money.KernelReleaseKeepsCouplingIff` | src/pm/risk/src/money-kernel.ts:486-500 | the kernel's row-blind release keeps the coupling exactly when it moves nothing |
| `Money.KernelReleaseLetsAConsumeSkip` | src/pm/risk/src/money-kernel.ts:486-500 | after such a release a consume of the same reservation reports success while its balance update is skipped |
| `MoneyStore.Store.ReserveFunds` | src/pm/risk/src/money-kernel-pg.ts:66-81 | set aside exactly when enough is available; the account keeps its total, no other account changes, nothing goes negative, a refusal changes nothing, and releasing the same amount undoes it |
| `MoneyStore.Store.ReleaseFunds` | src/pm/risk/src/money-kernel-pg.ts:83-98 | given back exactly when enough is committed; the account keeps its total, no other account changes, a refusal changes nothing, and reserving the same amount undoes it |
| `MoneyStore.Store.ConsumeFunds` | src/pm/risk/src/money-kernel-pg.ts:100-115 | the account loses exactly the amount, out of what is committed and only when there is enough; available cash and every other account stay |
| `MoneyStore.Store.Reserve` | src/pm/risk/src/money-kernel-pg.ts:199-519 | granted exactly when figures, dates, balance, open rows, decision and intent allow it; then the cash has moved from available to committed and a row holds exactly that cash, intent, decision and permit for one minute; a refusal is for a reason that is so and leaves nothing; the coupling is kept |
| `MoneyStore.Store.Consume` | src/pm/risk/src/reservation-manager.ts:136-243 | succeeds exactly for a live, unexpired row with room; the row has consumed that much more and is CONSUMED exactly when that is all of it, and the account has lost it out of committed cash; a refusal changes nothing; the coupling is kept |
| `MoneyStore.Store.Release` | src/pm/risk/src/reservation-manager.ts:246-336 | succeeds exactly for live rows; the row is closed, EXPIRED only when that is the reason, and its whole remainder is available again; a refusal changes nothing; the coupling is kept |
| `MoneyStore.Store.Credit` | src/pm/risk/src/funder-cash.ts:111-261 | refines the specification and keeps the coupling |
| `MoneyStore.Store.ExpireOverdue` | src/pm/risk/src/reservation-manager.ts:342-357 | whatever order the overdue rows come in: every one ends EXPIRED, no other row changes, each account gets back exactly its overdue remainder, and the count is the number of overdue rows |
| `MoneyStore.SweptBacksIff` | src/pm/risk/src/reservation-manager.ts:342-357 | after a sweep a live reservation still holds its remainder if and only if its time limit has not come, whatever its order does |
| `MoneyKernel.Kernel.Reserve` | src/pm/risk/src/money-kernel.ts:310-480 | the checks, then a retry loop bounded by two conflicts, after which the call decides or leaves nothing behind |
| `MoneyKernel.Kernel.Release` | src/pm/risk/src/money-kernel.ts:486-500 | the balance move and its event together, or neither |
| `MoneyKernel.Kernel.Consume` | src/pm/risk/src/money-kernel.ts:502-516 | the balance move and its event together, or neither |
| `MoneyKernel.RunSources` | src/pm/risk/src/money-kernel.ts:404-516 | over every run of kernel calls, refused and retried ones included, the live balances move by exactly what the projection makes of the events emitted |
| `MoneyKernel.RefusedLeavesNothing` | src/pm/risk/src/money-kernel.ts:404-441 | a call changes something exactly when it grants; conflicts within the budget make no difference, beyond it nothing is left |
| `MoneyKernel.GrantedIff` | src/pm/risk/src/money-kernel.ts:310-480 | a grant is exactly the kernel's ranges and budget in figures, at most two conflicts, and what the authority demands; it leaves the row and balances of exactly that request and one event of its cash; every refusal is for a reason that is so and leaves nothing |
| `MoneyKernel.CrashedReleaseSourcedIff` | src/pm/risk/src/money-kernel.ts:486-500 | dying between the balance move and the event leaves log and money apart exactly when cash moved |
| `MoneyKernel.ManagerConsumeSourcedIff` | src/pm/risk/src/reservation-manager.ts:205-243 | a reservation-manager consume agrees with the log exactly when it is refused |
| `MoneyKernel.ManagerReleaseSourcedIff` | src/pm/risk/src/reservation-manager.ts:246-329 | a reservation-manager release agrees with the log exactly when it is refused or has nothing to return |
| `MoneyKernel.CreditSourcedIff` | src/pm/risk/src/funder-cash.ts:189-261 | an attested credit, logged as it is, agrees with the log if and only if it adds nothing |
| `Projection.ProjectEventLinear` | src/pm/ledger/src/pg-projection-engine.ts:91-218 | scaling an event's amounts, through corrections nested to any depth, scales its effect |
| `Projection.ProjectsAsAccounted` | src/pm/ledger/src/pg-projection-engine.ts:91-218 | every event, at whatever depth of correction, does to available and committed cash what its innermost type means for the account: reservations and releases change no total, a fill costs cash and fee less rebate out of committed cash, gains and losses reach available cash, other types nothing, and what cannot be read fails |
| `Projection.NestedCorrectionsAlternate` | src/pm/ledger/src/pg-projection-engine.ts:91-218 | correcting corrections alternates the sign of the first event's effect |
| `Projection.FoldAddsUp` | src/pm/ledger/src/pg-projection-engine.ts:302-361 | a folded balance is the starting balance plus the sum of the events' effects |
| `Projection.ApplyAdds` | src/pm/ledger/src/pg-projection-engine.ts:302-361 | each balance moves by what the event adds to it, and its row names the highest event that touched it |
| `Projection.CorrectionsCancel` | src/pm/ledger/src/pg-projection-engine.ts:91-218 | an event and a later correction of it, with anything between, leave every balance as if neither had happened |
| `Projection.UntypedCorrectionCancelsIff` | src/pm/ledger/src/pg-projection-engine.ts:91-218 | a correction that does not name the original's type cancels exactly when the original had no effect |
| `ProjectionEngine.Engine.Process` | src/pm/ledger/src/pg-projection-engine.ts:266-368 | with no other call committing between its read and its transaction: the fold of the due events and their last sequence as checkpoint, or nothing at all |
| `ProjectionEngine.Engine.Rebuild` | src/pm/ledger/src/pg-projection-engine.ts:232-264 | when all three of its commits go through: the fold of the whole log, from any table and checkpoint |
| `ProjectionEngine.Engine.UpdateCheckpoint` | src/pm/ledger/src/pg-projection-engine.ts:370-388 | the checkpoint of one projection is raised to the sequence, never lowered, and the others stay |
| `ProjectionEngine.RunAgrees` | src/pm/ledger/src/pg-projection-engine.ts:266-368 | over any run of appends, bounded batches, rolled-back batches and completed rebuilds, one after another, the table is the fold of the events up to the checkpoint |
| `ProjectionEngine.ReachableBalances` | src/pm/ledger/src/pg-projection-engine.ts:266-368 | in such a run every balance is the sum of the effects of the events up to the checkpoint |
| `ProjectionEngine.BatchIdempotent` | src/pm/ledger/src/pg-projection-engine.ts:266-300 | processing the same bound again changes nothing |
| `ProjectionEngine.RebuildAgrees` | src/pm/ledger/src/pg-projection-engine.ts:232-264 | a rebuild from any table and checkpoint agrees with the fold |
| `ProjectionEngine.RebuildReproduces` | src/pm/ledger/src/pg-projection-engine.ts:232-264 | rebuilding an up-to-date projection reproduces it |
| `ProjectionEngine.LateAppendAgreesIff` | src/pm/ledger/src/pg-projection-engine.ts:266-300 | an event that appears at or below the checkpoint leaves the table right exactly when it moves no balance |
| `ProjectionRuns.RunDrifts` | src/pm/ledger/src/pg-projection-engine.ts:232-388 | over any interleaving of reads, commits, truncations, resets and events appearing anywhere in the log, the table drifts from the log by exactly the sum of what each commit applied less what its checkpoint passed, each late event, each truncation and each reset |
| `ProjectionRuns.InStepIff` | src/pm/ledger/src/pg-projection-engine.ts:232-388 | a projection in step ends in step if and only if, for every balance, those amounts cancel out |
| `ProjectionRuns.CleanRunInStepIff` | src/pm/ledger/src/pg-projection-engine.ts:232-388 | so from empty tables |
| `ProjectionRuns.WholeCallKeepsDrift` | src/pm/ledger/src/pg-projection-engine.ts:266-368 | an uninterrupted call from where the checkpoint stands is the engine's batch and leaves every drift as it was |
| `ProjectionRuns.OverlapInStepIff` | src/pm/ledger/src/pg-projection-engine.ts:266-279 | two calls that read before either commits stay in step if and only if the shorter of their batches moves no balance |
| `ProjectionRuns.TruncatedInStepIff` | src/pm/ledger/src/pg-projection-engine.ts:240-254 | after a rebuild that died on its truncation, and whatever is appended and processed since, the projection is in step if and only if a later rebuild completed or the events up to the checkpoint had moved no balance |
| `ProjectionRuns.ResetRestores` | src/pm/ledger/src/pg-projection-engine.ts:246-264 | a rebuild that has reset the checkpoint is in step wherever it stops |
| `ProjectionRuns.LateStartInStepIff` | src/pm/ledger/src/pg-projection-engine.ts:266-303 | a call that starts above the checkpoint, with or without an upper bound, stays in step if and only if what it jumps over moves no balance |
| `ProjectionWrites.BatchKeepsCoupledIff` | src/pm/ledger/src/pg-projection-engine.ts:332-343 | a batch's writes into the live money table keep it coupled to the reservations if and only if, for every account, they leave committed cash as it was and available cash not below nothing |
| `ProjectionWrites.ReservationEventDecouplesIff` | src/pm/ledger/src/pg-projection-engine.ts:332-343 | the event of a reservation decouples live money if and only if the reservation holds cash |
| `ProjectionWrites.TruncateKeepsCoupledIff` | src/pm/ledger/src/pg-projection-engine.ts:240-244 | truncating the live money table leaves it coupled if and only if there is no reservation row |
| `EventStore.Store.Append` | src/pm/ledger/src/event-store.ts:68-92 | a known id changes nothing and reports its number; a new one gets a number above all others |
| `EventStore.Store.AppendMany` | src/pm/ledger/src/event-store.ts:94-98 | all events are stored under the numbers reported and nothing stored before has changed |
| `EventStore.Store.Replay` | src/pm/ledger/src/event-store.ts:104-124 | exactly the selected events, in append order, up to the limit |
| `EventStore.SelectionExact` | src/pm/ledger/src/event-store.ts:104-124 | an id is replayed if and only if it is stored at or after the cursor and of the aggregate asked for |
| `EventStore.SelectionSorted` | src/pm/ledger/src/event-store.ts:115-121 | sorting what is replayed by sequence changes nothing: append order is sequence order |
| `EventStore.SelectionOfAll` | src/pm/ledger/src/event-store.ts:104-124 | an unrestricted replay is the whole log in append order |
| `Outbox.Processor.Drain` | src/pm/ledger/src/pg-outbox-processor.ts:56-97 | the loop with its checkpoint after each job, dying at any await: what is delivered and where the checkpoint stands |
| `Outbox.GapFreeAtLeastOnce` | src/pm/ledger/src/pg-outbox-processor.ts:56-97 | over any run of appends, drains and crashes with a seeded row: first deliveries are a prefix of the log in log order, redeliveries are at most the crashes, a completed drain has delivered all it read, and the next one delivers nothing |
| `Outbox.UnseededRedelivers` | src/pm/ledger/src/pg-outbox-processor.ts:85-91 | without the row a second drain repeats the whole log, and repeats nothing only if there is nothing |
| `Outbox.LateEventDeliveredIff` | src/pm/ledger/src/pg-outbox-processor.ts:56-72 | in every reachable state, an event that becomes visible is ever delivered, and by the next completed drain, if and only if its place is at or after the checkpoint |
| `ExecutorSteps.CheckOrder` | src/pm/executor/src/index.ts:317-421 | the checks between validation and claim pass exactly when permit, order, clock and venue mode suit, field by field; each refusal names a fault that is there |
| `ExecutorSafety.AtMostOncePerPermit` | src/pm/executor/src/index.ts:241-481 | in every interleaving of submits, reconciles, cancels, restarts with any seen log and money transactions: no two requests under one permit, and each request was made under a permit claimed for that order, with the worker's own stored epoch, for an order the permit allows and the recovery ledger knows |
| `ExecutorSafety.BoundOrderOnce` | src/pm/executor/src/index.ts:338-356 | an order that carries a permit id is sent at most once, in every interleaving |
| `ExecutorSafety.UnlistedNeverSent` | migrations/0005_balance_store_event_sink_recovery_supervisor.sql:52-53 | in every interleaving an order that reaches the venue has been recorded by something else: no operation writes the row its claim refers to |
| `ExecutorSafety.UnboundOrderTwice` | src/pm/executor/src/index.ts:205-263 | for every order that carries none there is a run, in which the order is recorded and two permits are issued, without any restart, that sends it twice |
| `ExecutorSafety.AtMostOncePerOrderIff` | src/pm/executor/src/index.ts:241-481 | an order is sent at most once in all runs, those that record it included, if and only if it carries a permit id |
| `ExecutorSafety.ApplySafe` | src/pm/executor/src/index.ts:241-951 | each step of each operation keeps the invariant behind this: claimed permits stay claimed, operations about to send hold distinct permits, reconcile and cancel never send |
| `ExecutorSafety.MoneyStaysReachable` | src/pm/executor/src/index.ts:497-945 | whatever the operations do and wherever they die, the money tables are in a state the reservation transactions alone can reach, hence coupled |
| `Executor.Executor.AcquireLease` | migrations/0007_permit_order_binding.sql:31-48 | a lease that is taken shuts out everyone else until it lapses, except a higher epoch, and only its holder gives it up; a refusal means a holder of no lower epoch has not lapsed |
| `Executor.Executor.ClaimPermit` | src/pm/venue/src/permit-store.ts:130-181 | claims the permit for this order and records SUBMITTING in one step, if and only if the permit is on file, unused and unexpired and the order's own row exists; an existing ledger row keeps its counters and its resolved flag; otherwise nothing changes, for a reason that is so |
| `Executor.Executor.Send` | src/pm/executor/src/index.ts:466-481 | in the seen log and the ledger before the one call to the venue |
| `Executor.Executor.Settle` | src/pm/executor/src/index.ts:483-651 | after the venue's answer: reservations are released exactly on proof that no connection was opened or on a refusal by the venue; a failure that proves nothing, a timeout or reset among them, ends to be reconciled with money, row and seen log as they were; what seen log and row hold after each answer, and that no other order's change |
| `Executor.Executor.Submit` | src/pm/executor/src/index.ts:206-651 | the venue is asked exactly when lease, seen log, permit on file, order, clocks, mode and order record allow it, all named field by field, and once; then seen log, row, permit, money and outcome are what the answer calls for, and NOT_SENT is returned if and only if the failure proves that no connection was opened; otherwise nothing is changed, but that the permit may be filed, and the outcome names a fault that is there; the lease is given up; and the call is a complete run of the machine's submit |
| `ExecutorAnswers.AnsweredSo` | src/pm/executor/src/index.ts:483-651 | in every run, of whatever other operations, crashes and restarts: a submit that gives reservations back had proof that nothing left, or a refusal, as its answer, and one that ended in an outcome only an answer brings had exactly the answer that calls for it |
| `ExecutorAnswers.OpenMovesNoMoney` | src/pm/executor/src/index.ts:101-109 | after an answer that leaves it open whether anything was sent, the submit is bound for a reconciliation and moves no money, in any continuation |
| `ExecutorAnswers.OpenThenDuplicate` | src/pm/executor/src/index.ts:527-573 | after such an answer the row is as unresolved as it was, seen log and row agree on SUBMITTING or SUBMISSION_UNKNOWN, the money is where it was, and the next submit of the order is a duplicate, under whatever permit and worker |
| `Executor.Executor.Reconcile` | src/pm/executor/src/index.ts:740-945 | the venue is asked exactly about unresolved rows; a report of CANCELED, REJECTED or EXPIRED leaves seen log and row at DEFINITIVE_REJECT, the row resolved, even when the submission was acknowledged, and releases the order's reservations; otherwise an acknowledged report leaves the seen log at ACKNOWLEDGED and the row resolved as ACKNOWLEDGED, or, while LIVE or PARTIAL, open in ACKNOWLEDGED; anything less leaves row, seen log and money alone; no other order is touched, and a lease taken is given up |
| `Executor.ResolvingReports` | src/pm/venue/src/recovery-ledger.ts:207-255 | in any state a report leaves a row so, and a resolved row that the report finds working is left alone |
| `Executor.Executor.Cancel` | src/pm/executor/src/index.ts:659-737 | each outcome exactly when it comes about: without the lease, against the mode, thrown on an unresolved row, or by the venue's word; all that is left behind, a confirmed cancel closing the row as rejected and releasing the order's reservations, and a cancel that threw keeping the lease; and the call is a complete run of the machine's cancel |
| `Executor.Executor.CountFillRow` | src/pm/venue/src/recovery-ledger.ts:305-350 | counters never fall and never lag the report, what is returned is exactly the rise, a replay returns nothing, and no other row changes |
| `Executor.SeenOrderIsDuplicate` | src/pm/executor/src/index.ts:245-263 | no blind retry: an order the seen log holds in any state but a definitive reject is refused as a duplicate, and nothing but the lease is touched |
| `Executor.CallsAreRuns` | src/pm/executor/src/index.ts:206-945 | whatever the object does in a call, some run of any world with that operation under way does; so what holds of every run holds of it |
| `ExecutorFills.SpendsHere` | src/pm/executor/src/index.ts:627-635 | of several reservations on a permit, one named once is consumed from once |
| `ExecutorFills.CountTakes` | src/pm/executor/src/index.ts:868-905 | counting a report raises the counter to it, and the reservation is asked for exactly the rise, which it takes whole or refuses whole |
| `ExecutorFills.PollHears` | src/pm/executor/src/index.ts:813-928 | one poll: the counter hears the report, the reservation takes or refuses the rise, and exactly a final answer closes the row |
| `ExecutorFills.PollAsks` | src/pm/executor/src/index.ts:858-928 | a poll that finds the order working, whatever has become of its reservation: the rise of the counter is consumed if and only if the reservation is live, unexpired and has room |
| `ExecutorFills.PollsConsume` | src/pm/executor/src/index.ts:813-928 | over any polls of an unexpired reservation the counter ends at the highest report, and the reservation has taken its rise less what was refused |
| `ExecutorFills.PollsTelescope` | src/pm/executor/src/index.ts:858-928 | over any polls, replays included, the cash consumed is the highest cumulative cash reported plus the initial offset, and within the reservation |
| `ExecutorFills.AckAccounts` | src/pm/executor/src/index.ts:609-651 | an acknowledgement leaves reservation and counters in agreement at the cash it reported |
| `ExecutorFills.CarriedCounterIff` | src/pm/venue/src/recovery-ledger.ts:305-350 | a request that finds the counter an earlier one left: its reservation ends at the highest cash it reported if and only if that counter is no more than its acknowledgement, or no later report is |
| `ExecutorFills.SubmitThenPolls` | src/pm/executor/src/index.ts:609-928 | from the request to the last poll, with a venue that fills within size and limit while the reservation lives: consumed cash is the highest cumulative cash reported and never exceeds what is reserved |
| `ExecutorFills.DoubleCountIff` | src/pm/executor/src/index.ts:617-651 | dying between the consume and the seeding, with any polls after: the total is acknowledged cash plus highest report less what was refused, and right if and only if the refusals are the smaller of the two |
| `ExecutorFills.OneReportDoubleCountIff` | src/pm/executor/src/index.ts:617-651 | for one later report: right if and only if one of the two is nothing when both fit the reservation, and the report no more than the acknowledgement when they do not |
| `ExecutorFills.RoomyDoubleCountIff` | src/pm/executor/src/index.ts:617-651 | for any polls with room for both: right if and only if one of the two is nothing |
| `ExecutorFills.StaleDoubleCountIff` | src/pm/executor/src/index.ts:617-651 | for any polls that report no more than was acknowledged: right if and only if every rise overdraws the reservation |
| `ExecutorFills.LostFillIff` | src/pm/executor/src/index.ts:880-905 | dying between the counters and the consume makes the total short exactly when the report was news |
| `ExecutorFills.TerminalPollSettles` | src/pm/executor/src/index.ts:816-857 | a poll that finds the order dead resolves it, and each of its reservations ends settled: consumed stays, the rest is released |
| `ExecutorFills.ConfirmedCancelSettles` | src/pm/executor/src/index.ts:690-730 | a permitted cancel the venue would confirm is confirmed if and only if the row is resolved already, and then settles every reservation at once; otherwise it throws and changes nothing |
| `ExecutorFills.ResentIsQueriedIff` | src/pm/venue/src/permit-store.ts:157-168 | after an order is sent, again or for the first time, a reconcile asks the venue about it if and only if its row was absent or unresolved |
| `ExecutorAccounts.RunAccounts` | src/pm/executor/src/index.ts:609-928 | for every order, every set of reservations and every interleaving of submits, reconciles, cancels, restarts and other money transactions, wherever operations stop: consumed cash is the highest cash counted, plus what was seeded late, less what was refused, plus what went astray, less what unfinished operations still mean to do |
| `ExecutorAccounts.TotalRightIff` | src/pm/executor/src/index.ts:609-928 | once every operation has ended, the total equals the highest cash counted if and only if what was seeded late and what went astray equal what was refused |
| `ExecutorTotals.TiedTotalRightIff` | src/pm/executor/src/index.ts:609-928 | if every permit the order is sent under names one of its reservations, however many permits there are, and no other permit or party touches them: nothing goes astray, and with nothing refused the total is right if and only if no acknowledged fill was seeded after another had been counted |
| `ExecutorAccounts.ApplyMoves` | src/pm/executor/src/index.ts:609-928 | each single step, of any operation on any order, changes the account by exactly what it refused, seeded late or led astray |
| `ExecutorWitnesses.ResolvedNeverQueried` | src/pm/executor/src/index.ts:740-812 | once an order's row is resolved and no reconcile of it has got past its look at the row, no run whatever asks the venue about it again |
| `ExecutorWitnesses.ResentGoesUnasked` | src/pm/venue/src/permit-store.ts:157-168 | a run sends an order twice, each time under a permit with a reservation of its own, and has it live at the venue, and no continuation ever asks about it |
| `ExecutorWitnesses.LiveOrderUncancelled` | migrations/0005_balance_store_event_sink_recovery_supervisor.sql:53-60 | a run in which an order is live at the venue and a cancel that lease and mode allow throws before reaching it |
| `ExecutorWitnesses.FillConsumedTwice` | src/pm/executor/src/index.ts:609-905 | a run, without a crash, in which submit and reconcile both end and one fill is consumed twice |
| `ExecutorWitnesses.LiveOrderUnbacked` | src/pm/risk/src/reservation-manager.ts:342-357 | a run in which an order is live and half filled at the venue while its reservation has expired: the fill is counted and never consumed |
| `OrderBuilder.BuildSignedOrder` | src/pm/control/src/order-builder.ts:43-184 | builds exactly when a stated condition on intent and permit holds, and refuses for a reason that is so; the order has the intent's market, side and price, its style or LIMIT when it names none, and the largest size that fits up to one base unit of cash, an order that fits not being shrunk; no division by zero; the permit allows it and the executor's checks accept it |
| `OrderBuilder.ScaledIsClamped` | src/pm/control/src/order-builder.ts:103-117 | the scaled size costs at most the cash ceiling, at least one unit less, and one more share would exceed it |
| `RiskGate.ValidateAndReserve` | src/pm/control/src/risk-gate.ts:59-217 | for each refusal, the exception and the grant, exactly when it is returned; a grant is within policy, intent and the three limits, written out in figures; its permit is for that market, side, price and size, for a minute, and its reservation holds exactly the order's cash for the same minute; anything else leaves money and events alone |
| `RiskGate.MintedPasses` | src/pm/domain/src/index.ts:543-609 | every permit that has been paid for passes the permit schema and is written out as it is, and its decision passes the decision schema, whatever the input: the refusals for a failed schema are never reached |
| `RiskGate.ToBase` | src/pm/signer/src/index.ts:358-372 | negative amounts count as nothing, more than six decimals are refused, and everything else converts without rounding |
| `RiskGate.Cap` | src/pm/control/src/risk-gate.ts:104-137 | a limit is the largest whole amount not above the fraction of capital |
| `G4.Core.ReleaseUnsubmitted` | src/pm/runtime/src/live-accounting.ts:305-343 | releases each of the permit's reservations that is named, or without any its cash through the kernel, or nothing |
| `G4.GiveBackOnce` | src/pm/runtime/src/live-accounting.ts:299-304 | giving a permit's reservations back a second time changes nothing, whatever state their rows were in |
| `G4.MintedGivenBack` | src/pm/runtime/src/live-accounting.ts:317-328 | for a minted permit that is the one release of its reservation |
| `G4.Core.ExecuteStep` | src/pm/runtime/src/g4-core.ts:751-1130 | exactly when a step hands its order to the executor (entry, gate, reservation, signature, cap with room for it, loss cap, wired guard, latch off), when the venue hears of it, and when it trades; every request is the one LIMIT order on the input's market, side, size and price; each reason is one that holds; a step that does not trade restores every balance, whatever it stopped at, and one that trades has not released its reservation and books by the law below; an exception of the gate comes before anything is reserved, exactly when an exposure does not convert |
| `G4.AbortRestores` | src/pm/runtime/src/g4-core.ts:1023-1085 | releasing after the reservation restores every balance, even when the executor already released |
| `G4.RefusedRestores` | src/pm/runtime/src/g4-core.ts:1074-1086 | whatever the executor refused for, the step's own release evens it out |
| `G4.SubmittedHolds` | src/pm/runtime/src/g4-core.ts:1063-1073 | after a submit the reservation may have been consumed, but nothing of it released |
| `G4.BookedAtMostNotional` | src/pm/runtime/src/g4-core.ts:1033-1111 | with a venue that fills within size and limit a step books at most what it checked against the cap |
| `G4.BookedLaw` | src/pm/runtime/src/live-accounting.ts:82-162 | for every report of the venue: what is booked is size times limit less filled times (limit less average), a missing or unusable average saving nothing; with a fill within size and limit the whole notional exactly when nothing was filled below the limit |
| `LiveAccounting.ExposureAtMostNotional` | src/pm/runtime/src/live-accounting.ts:131-162 | booked exposure lies between nothing and the order's notional |
| `LiveAccounting.ExposureIsNotionalIff` | src/pm/runtime/src/live-accounting.ts:131-162 | the whole notional is booked exactly when nothing is filled below the limit |
| `PositionTracker.Tracker.Add` | src/pm/strategy/src/portfolio-allocator.ts:106-109 | the total rises by exactly what is added; garbage is ignored |
| `PositionTracker.Tracker.ReplaceAll` | src/pm/strategy/src/portfolio-allocator.ts:116-124 | the book is the snapshot's positive entries, later ones winning |
| `PositionTracker.Tracker.Resolve` | src/pm/strategy/src/portfolio-allocator.ts:130-142 | the named tokens leave, and what is reclaimed is what the total loses |
| `PositionTracker.Tracker.Total` | src/pm/strategy/src/portfolio-allocator.ts:150-154 | the sum of the book, in whatever order it is walked |
| `PositionTracker.ExposureWithinSum` | src/pm/strategy/src/portfolio-allocator.ts:145-154 | no token is exposed for more than the whole |
| `Pipeline.RunUnderCap` | src/pm/runtime/src/g4-pipeline.ts:157-278 | over any sequence of admissible steps, settlements and snapshots the total never exceeds the largest of the cap, where it started, and what a snapshot brought in |
| `Pipeline.Pipeline.ProcessMarket` | src/pm/runtime/src/g4-pipeline.ts:233-278 | one step held to the larger of supplied and tracked exposure, portfolio and market: a trade had room for its notional under the cap beside each of them, and the tracker gains exactly what the law of the booking makes of the venue's report; the request, if any, is the turn's own LIMIT order, under an unlatched guard; with a fair venue the step is one the run theorem admits, under the cap and under the policy's portfolio limit; without a trade every balance and the book stay |
| `Pipeline.WithinPortfolio` | src/pm/control/src/risk-gate.ts:124-137 | an order the gate lets through leaves exposure plus notional within the policy's fraction of capital, up to one base unit |
| `Pipeline.Pipeline.ProcessMarkets` | src/pm/runtime/src/g4-pipeline.ts:281-290 | over any markets and answers, with a venue that fills within size and limit, tracked exposure ends at or under the cap (and the policy's limit), or at most where it started; every request is the LIMIT order of a turn with entries allowed, both caps configured and the guard wired and unlatched; an exception ends the pass |
| `Pipeline.Pipeline.Pass` | src/pm/runtime/src/g4-pipeline.ts:310-330 | one round of the loop; a full portfolio or halted entries make no request and move no money, and a latched guard, an unwired one or a missing cap makes no request |
| `Pipeline.Pipeline.RunContinuous` | src/pm/runtime/src/g4-pipeline.ts:304-430 | over any rounds, with such a venue, tracked exposure never exceeds the largest of the cap, where it started, and what a durable snapshot brought in |
| `Pipeline.Pipeline.AccountAfterStep` | src/pm/runtime/src/live-accounting.ts:243-286 | exactly what the step booked is added to the total, a fill is counted once, the fill ratio times the orders is the fills, and the maximum is over every total seen |
| `Pipeline.Pipeline.SyncSettlements` | src/pm/runtime/src/g4-pipeline.ts:157-173 | settled tokens leave and the total does not rise; a missing feed changes nothing |
| `StableSorting.StableSortCorrect` | src/pm/intelligence/src/calibration.ts:22 | sorted, a permutation, and stable |
| `Calibration.FitIsotonic` | src/pm/intelligence/src/calibration.ts:19-41 | the sorted data split into contiguous runs with rising means, one breakpoint each; the map rises, and the fit is least squares among all non-decreasing fits, clamped or not |
| `Calibration.PoolBack` | src/pm/intelligence/src/calibration.ts:27-35 | the inner merge loop keeps the stack a split into pooled runs and restores rising means |
| `Calibration.MergeCeiling` | src/pm/intelligence/src/calibration.ts:29-34 | merging a violating pair keeps every prefix of the block averaging at least the block |
| `Calibration.IsotonicOptimal` | src/pm/intelligence/src/calibration.ts:19-41 | any other non-decreasing fit is worse by at least its squared distance, so the block means are the only minimum; likewise the stored values among fits in [0, 1] |
| `Calibration.FitPreservesMass` | src/pm/intelligence/src/calibration.ts:31-33 | block sizes times means add up to the outcomes |
| `Calibration.ClampIdle` | src/pm/intelligence/src/calibration.ts:37-40 | for outcomes in [0, 1] the clamp does nothing |
| `Calibration.ApplyIsotonic` | src/pm/intelligence/src/calibration.ts:48-60 | the nearest end outside the breakpoints, else the value of the last breakpoint passed |
| `Calibration.ApplyMonotone` | src/pm/intelligence/src/calibration.ts:48-60 | applying a rising map is monotone and stays between the end values |
| `Calibration.OwnValueIff` | src/pm/intelligence/src/calibration.ts:48-60 | every breakpoint is mapped to its own value if and only if breakpoints that share a `p` share a value |
| `Calibration.ServesOwnBlockIff` | src/pm/intelligence/src/calibration.ts:43-60 | for all data, ties included: exactly when the map gives a data point the level of its own block; before a block's last point it never gives more |
| `Calibration.UntiedServesIff` | src/pm/intelligence/src/calibration.ts:43-60 | without ties: if and only if the block is the first, the point its last, or the block before has the same level |
| `Calibration.MapMissesFit` | src/pm/intelligence/src/calibration.ts:43-60 | three points on which the fit has one half at the second and the map gives 0 |
| `Calibration.FittedMapRises` | src/pm/intelligence/src/calibration.ts:37-40 | a fitted map has ordered breakpoints and rising values, all probabilities |
| `EditDistance.Distance` | src/pm/runtime/src/cli.ts:449-466 | the table's last entry is the recurrence's distance |
| `EditDistance.NoScriptShorter` | src/pm/runtime/src/cli.ts:449-466 | no script of single-character edits is shorter than the distance |
| `EditDistance.ScriptExists` | src/pm/runtime/src/cli.ts:449-466 | a script of exactly that length exists |
| `EditDistance.LevIsLeast` | src/pm/runtime/src/cli.ts:449-466 | the distance is the least length of a script |
| `EditDistance.SuggestCommand` | src/pm/runtime/src/cli.ts:448-478 | the first command of least distance among those within their own thresholds; nothing if and only if there is none |
| `JsonScan.ExtractJsonObject` | src/pm/intelligence/src/forecast-provider.ts:166-190 | the loop refines the scanning machine |
| `JsonScan.ReadsQuoted` | src/pm/intelligence/src/forecast-provider.ts:176-181 | a string in any escaping is read as a whole, braces and quotes in it notwithstanding |
| `JsonScan.ReadsValue` | src/pm/intelligence/src/forecast-provider.ts:172-188 | any nested value is read as a whole and leaves the depth as it was |
| `JsonScan.ExtractsPrintedIff` | src/pm/intelligence/src/forecast-provider.ts:166-190 | for any object in any spelling, prose without a brace and any tail, exactly the printed object is returned if and only if the prose is not blank or the tail is |
| `Sizing.ExpectedValueExact` | src/pm/risk/src/ev-calculator.ts:27-48 | the division is exact: win probability less price less fee |
| `Sizing.Size` | src/pm/risk/src/sizing-engine.ts:87-203 | never negative; capped exactly when Kelly asked for more cash, with the reason naming the cap that binds |
| `Sizing.SizeFitsCaps` | src/pm/risk/src/sizing-engine.ts:148-184 | a positive size costs at most the order cap, the remaining market and portfolio caps, and the Kelly cash |
| `Sizing.SizeMonotone` | src/pm/risk/src/sizing-engine.ts:87-203 | more expected value never sizes less |
| `Sizing.PositiveSizeMeansEdge` | src/pm/risk/src/sizing-engine.ts:98-116 | a positive size means a win probability above price and fee |
| `Sizing.FiguresRound` | src/pm/risk/src/sizing-engine.ts:98-163 | edge, odds, Kelly fraction, its share and the cash of each are their exact quotients rounded towards zero, the two sides swapping risk and gain |
| `Sizing.RoomsRound` | src/pm/risk/src/sizing-engine.ts:148-159 | the room left under the market and portfolio caps, never negative |
| `Sizing.SizeSpendsCash` | src/pm/risk/src/sizing-engine.ts:161-186 | a positive size is the most shares that the least of the Kelly cash and the three caps buys |
| `Sizing.ThresholdIsSign` | src/pm/risk/src/sizing-engine.ts:98-116 | the minimum edge refuses exactly the expected values that are not positive, at whatever threshold below one hundred per cent |
| `Sizing.CapIsHundredth` | src/pm/risk/src/sizing-engine.ts:148-184 | each cap of the engine is the hundredth part of the gate's, rounded down, and equal to it if and only if value times basis points is below ten thousand |
| `Sizing.SizedPassesGate` | src/pm/control/src/risk-gate.ts:104-137 | a sized order passes all three of the gate's limits, each by a factor of 100 |
| `BigInt.CashBounds` | src/pm/risk/src/money-kernel.ts:191-196 | cash is the largest whole amount not above the exact product |
| `BigInt.CashMonotone` | src/pm/risk/src/money-kernel.ts:191-196 | more shares at a higher price never cost less |

## Left out

- `createFromPermit` (src/pm/risk/src/reservation-manager.ts:76-122): inserts a row without moving money, so it is no step of the coupled tables.
- PostgreSQL text, isolation levels, pools and timers: a transaction is one atomic step, a retried conflict an attempt that leaves nothing.
- The driver's decoding of column types: the lease epoch comparison of src/pm/venue/src/permit-store.ts:224-234 is on integers.
- Exceptions from a dependency: the operation stops where it stands, as if its process had died; its lease then lapses by its time limit.
- The in-memory permit store and recovery ledger: the PostgreSQL ones are modelled.
- Run by run the projection's statements are about `balance_projections`; its writes into `balance_entries` are judged batch by batch, and are no step of the money runs.
- The foreign keys of a permit's row and of the lease's: a permit that is saved is taken to have its decision on record, and the wallet to exist.
- Fills first reported together with a terminal status: the code does not consume them before it releases, and neither does the model.
- Generated ids are taken to be non-empty, as they are; src/pm/runtime/src/live-accounting.ts:317 filters empty ones out.
- Pipeline.Pipeline.AccountAfterStep: fees and session profit are not modelled, because nothing that is feeds on them here.
- RiskGate.ValidateAndReserve: for intents that carry a limit price and a quantity, as the step's do; an intent without either is refused before the limits, and a quotient of notional and price is the order builder's case.
- ExecutorSteps.CheckOrder: that the fault a refusal names is there is stated; which one is named when there are several is the code's order, and is not stated apart from it. So for the refusals of submit, the step, the builder and the kernel.
- How a durable snapshot is computed (src/pm/runtime/src/exposure-sync.ts:389-417): its entries are arbitrary.
- The step without a wired `releaseReservation`: it releases through the kernel, past the rows, as `Money.KernelReleaseKeepsCouplingIff` describes.
- Floating-point rounding and the decimal conversion: amounts are exact, and `BuildSignedOrder` refuses a quotient that is not a whole number of base units.
- Strings are sequences of Unicode characters rather than UTF-16 units, and lower-casing is a parameter of the command suggestion.
- Signatures, hashes, key custody, schemas, providers, feeds, the command line and the small decision tables (kill switch, access state, charter, deployment and the like): easy members, or no logic of their own.
- `usdToBase` and the parsing of balances (src/pm/risk/src/funder-cash.ts:65-109): amounts arrive parsed.
- Pooled and calibrated maps are values here: the update in place of a block's arrays is modelled as a new block on the stack.
