# Order and credit protocol, verified

A Dafny model of how an errand lives in order-service and how its reward is held, changed, paid out and returned in
credit-service, with proofs over every run of the two services together.

The centre is a protocol between two databases that share no transaction. order-service writes an errand and its outbox
rows together; credit-service handles each command in one transaction and records a reply; result handlers apply the
reply to the errand and settle the row in two separate commits. Between them is a broker that loses, duplicates and
reorders. `Composite.Run` is any sequence of steps of that system: users, scheduler and reconciler deciding on rows they
read arbitrarily long ago, publications, repeated deliveries, handlers that crash between any two of their steps,
fences, wallets being opened. Every theorem named `...InRuns` holds after every such sequence, for every errand at once.

How the proof is built:

- `Keys`, `Errands`, `StateMachine`, `RuleTable`, `TransitionTable`: keys, rows, the transition table and `Next`.
- `Lifecycle`, `Acceptance`: what each event means, independent of the table, what every reachable errand looks like,
  and the answer to every event on plain columns, actors and clock readings.
- `Wallets`, `WalletService`, `Sums`, `Economy`, `CreditTheorems`, `CreditAnswers`: credit-service as functions on its
  database, the same commands statement by statement on mutable state, what holds of the books, and the answer to every
  command on balances and reservations.
- `Saga`, `SagaProofs`: one errand's side of the protocol and its invariant.
- `StoreModel`, `Store`, `Due`: the errand store as transactions on a value, and the store that runs them in place.
- `Composite`, `CompositeInv`, `CompositeRows`, `CreditParts`, `CompositeCredit`, `CompositeSmallSteps`,
  `CompositeWrites`, `CompositeSubmit`, `CompositeProofs`: the whole system, its projection onto one saga per errand, and
  the proof that every step keeps the invariant.
- `Theorems`, `ResultTheorems`, `ResultHandler`, `StoreSteps`, `AnnouncedRows`, `ReviewTheorems`, `FenceTheorems`,
  `StoreAnswers`, `DeliveryTheorems`, `Handling`, `DroppedEdit`: what follows for every run, among it what the store
  answers and writes and what each step of dispatcher and handlers does.
- `Scheduler`, `Reconciler`, `FenceService`, `Contracts`, `Breaker`, `KeyCache`, `ReviewPaging`: the jobs, the fence
  protocol, the wire contract, and the smaller concurrent machines.

One promise turned out not to hold. An active reservation does not always equal the reward of an errand that has no
pending edit and whose reverts were all answered: a CANCELLED or EXPIRED errand may have dropped an edit whose adjust
credit-service had applied, until its release arrives. `DroppedEdit.TrackingFails` is such a run, and
`Theorems.ReservationTracksRewardInRuns` states exactly when the amounts agree.

Conventions. Integers are unbounded except where `Economy.ArithmeticFits` says otherwise. Errand, supplier and operation
IDs are canonical lower-case UUIDs, as the create handler and the UUID columns make them. Time is a number of
nanoseconds. A wallet is addressed by its identity provider subject, which is unique. Each credit command is one atomic
step: the consumer handles deliveries one at a time and the transaction locks its wallets.

## Model

| member | source | states |
|---|---|---|
| Keys.KeyInjective | order-service/internal/errand/outbox.go:72-82 | `{id}:{op}[:{version}]` is a different string for every errand, operation and version, as long as IDs hold no colon |
| Keys.RejectionKeyDisjoint | order-service/internal/errand/ports.go:104-120 | a rejection row's key is never the key of a transition or reminder row |
| Keys.ItoaSaysNumber | order-service/internal/errand/outbox.go:75-82 | a version is spelled in decimal digits without leading zeros |
| RuleTable.TableGives | order-service/internal/errand/state.go:66-147 | reading the table for any state and event gives nothing, unless it is the one state the event leaves; then the one rule of the event, or the two of a withdrawal |
| TransitionTable.LookUp | order-service/internal/errand/state.go:137-147 | the table loop returns those rules, and some rule exists only for the one state each event leaves |
| TransitionTable.HasMovedPast | order-service/internal/errand/state.go:411-422 | the loop over the table answers whether every state the event can leave comes before the current one |
| TransitionTable.Choose | order-service/internal/errand/state.go:350-368 | the first candidate whose guards all hold, or the error of the guard that failed last |
| TransitionTable.BuildCreditRows | order-service/internal/errand/outbox.go:139-180 | the credit rows of a transition: rule command, requested adjust, revert of a dropped edit |
| TransitionTable.BuildRows | order-service/internal/errand/outbox.go:139-220 | appending row by row gives the credit rows followed by one row per announced event |
| TransitionTable.Decide | order-service/internal/errand/state.go:169-222 | the table-driven decision accepts exactly the enabled events and then has exactly their meaning |
| Lifecycle.NextAccepts | order-service/internal/errand/state.go:149-222 | `Next` accepts an event if and only if it is enabled, and then builds from the one rule of the event |
| Acceptance.NextAnswers | order-service/internal/errand/state.go:149-368 | for every errand, event, actor, input and time: the code of the first objection (state, actor, time, input), each written out on the columns, and acceptance exactly when there is none |
| Acceptance.SubmitAnswers | order-service/internal/errand/deadlines.go:96-118 | a submission is accepted if and only if it comes from the requester of a new errand with a reward, an item, printable contacts of at most 100 and 32 characters and a deadline 10 minutes to 24 hours ahead |
| Acceptance.EditAnswers | order-service/internal/errand/state.go:245-275 | an edit is accepted if and only if the errand is OPEN without a pending edit and the new details are valid; the window applies exactly to a changed deadline |
| Lifecycle.NextMeans | order-service/internal/errand/state.go:169-306 | an accepted event changes exactly the columns it should, swaps on the row it was decided on, records its reason or the default one, and puts exactly its command and its announcements, with all they say, into the outbox |
| Lifecycle.EffectKeepsWellFormed | order-service/internal/errand/state.go:202-306 | courier, deadlines, review reason and pending edit fit the state after every event, and (version, pending edit) strictly advances |
| Lifecycle.SubmitIsWellFormed | order-service/internal/errand/state.go:224-239 | a submission starts in such a state |
| Lifecycle.EffectMoves | order-service/internal/errand/state.go:66-125 | every event backed by the result it reports is one of the saga's moves |
| SagaProofs.MoveKeepsInv | order-service/internal/errand/outbox.go:83-180 | no change order-service makes breaks the saga's invariant |
| SagaProofs.AnswerKeepsInv | credit-service/internal/wallet/commands.go:114-404 | no command credit-service answers, in whatever order, breaks it either |
| SagaProofs.ReservationTracksReward | order-service/internal/errand/outbox.go:83-93 | for one saga: reservation equals reward exactly unless an applied edit was dropped by the release |
| CreditParts.JudgeFrame | credit-service/internal/wallet/commands.go:114-404 | a command changes no other order's reservation, tombstone or ledger entries, and no remembered result |
| CreditParts.JudgeAnswers | credit-service/internal/wallet/commands.go:114-404 | on its own order a command does exactly one of the answers the saga allows |
| WalletService.Service.constructor | credit-service/internal/wallet/service.go:53-61 | a new service holds empty, balanced books |
| WalletService.Service.InsertLedgerEntry | credit-service/internal/wallet/commands.go:149-158 | an entry is taken unless its key repeats in the wallet or both deltas are zero |
| WalletService.Service.ApplyDeltas | credit-service/internal/wallet/commands.go:159-161 | deltas are applied unless a balance would turn negative |
| WalletService.Service.Reserve | credit-service/internal/wallet/commands.go:114-170 | statement by statement the same database and result as the reserve transaction |
| WalletService.Service.Adjust | credit-service/internal/wallet/commands.go:173-230 | the same for adjust, including stale sequence numbers and refusals |
| WalletService.Service.Release | credit-service/internal/wallet/commands.go:233-279 | the same for release, including the tombstone |
| WalletService.Service.InsertTransfer | credit-service/internal/wallet/commands.go:355-391 | the two or three ledger entries of a transfer are all taken or the transfer fails |
| WalletService.Service.Transfer | credit-service/internal/wallet/commands.go:291-406 | the same for transfer: shortfall from available credits, surplus back to them |
| WalletService.Service.Run | credit-service/internal/creditmsg/handler.go:35-78 | each command reaches its operation |
| WalletService.Service.RunOnce | credit-service/internal/wallet/commands.go:413-450 | a repeat uses the stored result, a first handling is remembered unless it failed |
| WalletService.Service.Handle | credit-service/internal/wallet/commands.go:413-460 | a delivery leaves the database of the specification, an error rolls back, and balanced books stay balanced |
| WalletService.Service.CreateWallet | credit-service/internal/wallet/service.go:75-125 | one wallet and one allocation per owner; repeats and clashes change nothing; no constraint is ever violated |
| CreditAnswers.AnswersInRuns | credit-service/internal/wallet/commands.go:114-460 | after any commands, for every delivery: malformed is refused, a repeat gets its first result and moves nothing, any other gets exactly the result its order and balances call for and moves exactly those credits; a transfer pays if and only if reservation and available credits cover it |
| CreditAnswers.WalletsInRuns | credit-service/internal/wallet/service.go:75-125 | a new wallet of a new owner holds the initial allocation; any other creation changes nothing |
| Economy.JudgeKeepsBooks | credit-service/internal/wallet/commands.go:114-404 | every command keeps the books, and its only possible error is a reservation of another requester |
| Economy.CreateKeepsBooks | credit-service/internal/wallet/service.go:75-125 | a new wallet adds exactly its initial allocation |
| Economy.EntryKeyInjective | credit-service/internal/wallet/commands.go:149-391 | ledger keys of different operations, orders or sequence numbers are different strings |
| Economy.BooksInRuns | credit-service/internal/wallet/commands.go:149-404 | over any commands and wallet creations credits are conserved, balances stay non-negative, reserved is the sum of active reservations, the ledger rebuilds both balances and no ledger key repeats |
| Economy.ErrorsAreCallers | credit-service/internal/wallet/commands.go:413-460 | a database error occurs if and only if a settled command carries no errand version |
| Economy.ArithmeticFits | credit-service/internal/wallet/commands.go:114-404 | whenever the total fits 64 bits, so does everything a command computes, a reserve without a reservation included, and every balance it leaves |
| CreditTheorems.ExactlyOnce | credit-service/internal/wallet/commands.go:408-460 | for any deliveries the books end as with the first settled delivery of each message alone, and a settled message returns the same result for ever |
| CreditTheorems.NoEffect | credit-service/internal/wallet/commands.go:413-460 | repeats, errors and failed operations write nothing to wallets, reservations, tombstones, ledger or remembered results |
| CreditTheorems.LastWriterWinsInRuns | credit-service/internal/wallet/commands.go:190-227 | any adjusts of one reservation, in any order with any repeats, leave it at the newest affordable one |
| StoreModel.AddRowsGives | order-service/internal/testfakes/store.go:525-537 | rows with distinct keys are stored as given and disturb no other row |
| Store.ResolveAt | order-service/internal/testfakes/store.go:552-566 | resolving the review found by the search is resolving the errand's first open review |
| Store.ErrandStore.constructor | order-service/internal/testfakes/store.go:75-86 | a new store is empty |
| Store.ErrandStore.OpenReview | order-service/internal/testfakes/store.go:563-567 | the index of the first open review, or -1 exactly when there is none |
| Store.ErrandStore.CheckOutboxKeys | order-service/internal/testfakes/store.go:511-522 | accepts exactly the rows whose keys are new, also among themselves and the staged ones |
| Store.ErrandStore.WriteReview | order-service/internal/testfakes/store.go:541-560 | entering review appends an open review, leaving it resolves one |
| Store.ErrandStore.Commit | order-service/internal/testfakes/store.go:525-537 | errand, transition, review and outbox rows are written together |
| Store.ErrandStore.Create | order-service/internal/testfakes/store.go:201-231 | one errand per requester and key; a replay returns it, a fence or a clash changes nothing |
| Store.ErrandStore.Apply | order-service/internal/testfakes/store.go:233-263 | writes only on the row the transition was decided on, and otherwise returns the right code and changes nothing |
| Store.ErrandStore.ClaimDue | order-service/internal/testfakes/store.go:405-488 | claims the oldest due errands no other batch holds, up to the limit, and writes all their decisions or none |
| Store.ErrandStore.DecideBatch | order-service/internal/testfakes/store.go:445-457 | decides errand by errand and stops at the first failure |
| Store.ErrandStore.CheckBatch | order-service/internal/testfakes/store.go:470-485 | checks every transition against the errand as the earlier ones leave it, before anything is written |
| Store.ErrandStore.WriteBatch | order-service/internal/database/errandrepo/write.go:185-207 | a checked batch is written whole, or, exactly when a review it would resolve is missing, not at all |
| StoreAnswers.SubmissionsInRuns | order-service/internal/errand/ports.go:40-57 | in every run an accepted submission is stored, in every table as it should be, if and only if its key and ID are new and every fence of its supplier was released |
| StoreAnswers.DecisionsInRuns | order-service/internal/errand/ports.go:58-97 | in every run, for a decision on any row an errand ever had: unavailable in another state, changed if the row changed, refused for a move to a supplier with an unreleased fence, and else written: errand, record with the courier involved, review opened or resolved with its reason and reporter, outbox rows |
| StoreAnswers.CollisionsAbort | order-service/internal/testfakes/store.go:511-522 | in any database a transition with a stored or repeated key writes nothing |
| Due.SelectDue | order-service/internal/testfakes/store.go:416-428 | exactly the due errands that are not locked, each once, oldest first and then by ID |
| Due.TextLessMeans | order-service/internal/testfakes/store.go:424-428 | IDs are ordered as text: the first difference decides, and a text follows its proper prefixes |
| CompositeCredit.DeliverKeeps | credit-service/internal/creditmsg/handler.go:31-78 | any delivery of any published command, first or repeated, keeps the system's invariant |
| CompositeRows.RowsAreFree | order-service/internal/testfakes/store.go:511-522 | a transition's keys are unused, so the unique-key check passes |
| CompositeWrites.UpdateKeeps | order-service/internal/testfakes/store.go:233-263 | storing what was decided on the current row keeps the system's invariant |
| CompositeSubmit.InsertKeeps | order-service/internal/testfakes/store.go:201-231 | so does inserting a new errand |
| CompositeProofs.SwapIsCurrent | order-service/internal/testfakes/store.go:495-507 | a transition decided on an earlier row passes the compare-and-swap if and only if that row is the current one |
| CompositeProofs.ResultOutcome | order-service/internal/creditmsg/handler.go:266-297 | the event a result reports is accepted, or the errand has moved past it and refuses with a resolved code |
| CompositeProofs.ResultWrite | order-service/internal/creditmsg/handler.go:274-284 | a handler's write on the current row commits, and one that lost the race gets a resolved code |
| CompositeProofs.DoKeeps | order-service/internal/creditmsg/handler.go:11-18 | every step keeps the invariant |
| CompositeProofs.RunKeepsInv | order-service/internal/creditmsg/handler.go:11-18 | the invariant holds in every run |
| Theorems.ReservationTracksRewardInRuns | order-service/internal/errand/outbox.go:83-93 | with no edit pending and every revert answered, an active reservation equals the reward if and only if the errand did not end by dropping an applied edit |
| DroppedEdit.TrackingFails | order-service/internal/errand/outbox.go:222-238 | a run that ends with a reservation of 20 for a cancelled errand whose reward is 10 |
| Theorems.ErrandsWellFormedInRuns | order-service/internal/errand/state.go:202-306 | in every run a courier and courier deadlines exactly from ASSIGNED on and never the requester, a pending edit only while OPEN under `adjust:{version}` and for another reward, delivery and review facts that fit the state |
| Theorems.SolventInRuns | credit-service/internal/wallet/commands.go:252-404 | live errands are backed; transferred means COMPLETED and the courier paid the reward once, nobody else touched; released means rejected, cancelled, expired or refunded |
| Theorems.NothingStrandedInRuns | credit-service/internal/wallet/commands.go:126-275 | once every command of an errand that ended unpaid is answered, it holds nothing and has cost nobody anything |
| Theorems.SerialInRuns | order-service/internal/errand/ports.go:58-67 | two rows an errand ever had with the same (status, version, edit key) are one row, and a transition from a stale read is written only if the read is still current |
| Theorems.NeverRecursInRuns | order-service/internal/errand/ports.go:58-67 | once an errand's row has changed, its old (status, version, edit key) never comes back in any continuation |
| ResultTheorems.ResultsSafeInRuns | order-service/internal/creditmsg/handler.go:247-297 | a handler loses at most one race, never rejects or requeues, confirms only what can no longer apply, and no reserve row is confirmed while its errand waits |
| Handling.SettlesInRuns | order-service/internal/creditmsg/handler.go:203-256 | in every run, settling moves a PENDING or SENT row to CONFIRMED, or to FAILED for a failed operation, leaves any other status and every other row alone, and acknowledges |
| Handling.FinishedIsSettledInRuns | order-service/internal/creditmsg/handler.go:11-18 | in every run, at the step in which a handler finishes it acknowledges and its row is CONFIRMED or FAILED |
| Handling.HandledInRuns | order-service/internal/creditmsg/handler.go:203-297 | after every run an undisturbed handler of any recorded reply ends after four steps with the errand as the result decides, if it was still waiting, and the row settled |
| Handling.DispatchesInRuns | order-service/queries/messaging.sql:24-101 | in every run, marking sent, resending, giving up and requeueing move a credit row exactly between their two states |
| Handling.SentInRuns | order-service/internal/messaging/dispatcher.go:229-253 | after every run a pending command that credit-service takes is published, sent and answered under its key |
| Handling.NoticesInRuns | order-service/internal/errand/ports.go:103-117 | in every run a rejection or reminder of a stored errand adds its one spelled-out key, and a crash only forgets the handler |
| ResultHandler.Handler.constructor | order-service/internal/creditmsg/handler.go:86-94 | a handler over a store |
| ResultHandler.Handler.Interfere | order-service/internal/creditmsg/handler.go:11-18 | other writers leave a result that could apply, or was spent, spent |
| ResultHandler.Handler.ApplyEvent | order-service/internal/creditmsg/handler.go:258-297 | whatever others write between its reads and writes, the loop loses at most once, applies or resolves the result, and leaves nothing it could still do; what it applies is what the result decides, and alone it applies exactly a result the errand waits for; a missing errand is poison |
| ResultTheorems.OutboxSafeInRuns | order-service/internal/errand/outbox.go:72-93 | whatever comes next: unused keys, a larger adjust sequence number than ever before, and never both a release and a transfer |
| StoreSteps.StepWrites | order-service/internal/errand/ports.go:58-67 | every step writes nothing, one update decided on the current row, or one fresh submission |
| AnnouncedRows.AnnouncedInRuns | order-service/internal/errand/outbox.go:182-220 | in every run an event row is keyed by its errand, event and version, announces a version the errand has had, and carries the time it was written |
| ReviewTheorems.ReviewsMatchInRuns | order-service/internal/testfakes/store.go:541-567 | an errand has exactly one open review if and only if it is REVIEW_REQUIRED |
| ReviewTheorems.TakesCurrentInRuns | order-service/internal/errand/ports.go:84-97 | what is decided on a current row is always stored, unless a fence guards the supplier an edit moves to |
| FenceTheorems.FenceSafety | order-service/internal/fence/doc.go:18-26 | a supplier found free of active errands and pending edits stays so in every continuation until the fence is released, although confirmations are not checked |
| FenceTheorems.FenceStepsInRuns | order-service/internal/fence/service.go:67-141 | in every run, acquiring opens a fence for a new operation, closing ends an open one, and neither touches anything else |
| FenceService.Service.constructor | order-service/internal/fence/service.go:57-65 | a new service has written no audit row |
| FenceService.Service.HasActiveErrands | order-service/internal/fence/service.go:159-174 | counts active errands on the supplier or moving to it |
| FenceService.Service.Acquire | order-service/internal/fence/service.go:67-92 | opens the fence once, never reopens it, refuses another supplier, and an answer without active errands guards the supplier |
| FenceService.Service.Close | order-service/internal/fence/service.go:108-141 | commit and release are idempotent and exclude each other; every call is audited |
| DeliveryTheorems.BooksInSystemRuns | credit-service/internal/wallet/commands.go:149-404 | the books balance in every run of both services |
| DeliveryTheorems.CommandsSettleInRuns | credit-service/internal/wallet/commands.go:241-347 | every published command settles on delivery; only a transfer may fail, and it pays if and only if it was paid before or its courier has a wallet and reservation and available credits cover it, with the code of what is missing otherwise |
| Scheduler.DueIffAccepted | order-service/internal/errand/ports.go:363-396 | for every errand and time a deadline job's errand is due if and only if `Next` accepts the job's event |
| Scheduler.FiredIsNotDue | order-service/internal/scheduler/deadlines.go:24-78 | a fired errand is not due again for that job at that time |
| Scheduler.ClaimFires | order-service/internal/testfakes/store.go:464-488 | accepted events on different claimed errands pass every check of the batch and are all written |
| Scheduler.BatchFires | order-service/internal/scheduler/deadlines.go:24-78 | a deadline batch skips nothing and is refused nothing |
| Scheduler.SelectedIsOldest | order-service/internal/testfakes/store.go:416-431 | whatever due and unlocked errand a batch leaves out is due no earlier than those in it, and has the later ID if at the same time |
| Scheduler.Job.constructor | order-service/internal/scheduler/scheduler.go:120-130 | a job starts with its kind, limit and store and with every counter at 0 |
| Scheduler.Job.RunBatch | order-service/internal/scheduler/scheduler.go:244-272 | one batch fires exactly the claimed errands and counts them; a store error or a panic writes nothing, is counted and is returned as an error |
| Scheduler.Job.Drain | order-service/internal/scheduler/scheduler.go:200-211 | draining ends and fires each errand at most once; unless a batch failed, exactly those that were due, leaving none due |
| Reconciler.StuckFires | order-service/internal/reconciler/reconciler.go:120-153 | a batch of stuck errands never fails and fires on exactly those whose command may be given up |
| Reconciler.DbInvInRuns | order-service/internal/reconciler/reconciler.go:136-146 | every run's database is one the jobs are proved on, with a reserve row for every waiting errand |
| Reconciler.Runner.constructor | order-service/internal/reconciler/reconciler.go:37-54 | a new runner has no statistics |
| Reconciler.Runner.Count | order-service/internal/reconciler/reconciler.go:94-105 | a run is counted once, with what it applied or as a failure, and a panic as both a failure and a panic |
| Reconciler.Runner.RunOnce | order-service/internal/reconciler/reconciler.go:86-160 | fails only for an unknown job, unreadable settings, a non-positive timeout or a store failure, then writing nothing; otherwise ends exactly unlocked edits requested, and reservations created with their command SENT or FAILED, at least the timeout ago, all of them if the batch is not full, each with its release or revert and its announcement |
| Contracts.KeyFits | order-service/internal/messaging/publisher.go:124-135 | a key is short enough for an envelope and for credit-service unless the version has over 200 digits |
| Contracts.CommandRoundTrip | order-service/internal/messaging/dispatcher.go:376-402 | a credit row is publishable and is decoded by credit-service as the command it stands for |
| Contracts.PublishedExactly | order-service/internal/messaging/dispatcher.go:376-402 | a row is published if and only if key, errand, version and the fields its kind needs are there, and then as what it says, at its own time |
| Contracts.UnderstoodExactly | credit-service/internal/creditmsg/envelope.go:46-78 | a delivery is understood as a command if and only if envelope, route and body agree |
| Contracts.ResultRoundTrip | credit-service/internal/creditmsg/result.go:23-40 | a reply is decoded by order-service with its command, order and the event it reports |
| Contracts.ResultsExactly | order-service/internal/creditmsg/handler.go:149-200 | a result is understood if and only if its correlation names a command of its kind for its errand, and a refusal says why |
| Contracts.ResultSays | credit-service/internal/creditmsg/result.go:26-40 | a result names its command, errand and version, carries its amounts or its code, and its time to the second |
| Contracts.ResultIdsDiffer | credit-service/internal/creditmsg/result.go:23-33 | two results share a message ID if and only if they answer the same command in the same way |
| Contracts.ContractHoldsInRuns | order-service/internal/creditmsg/handler.go:149-200 | in every run: a command is published and understood as itself exactly when its key fits an envelope, an announcement as written exactly when it also has a time, every key fits unless its errand changed 10^200 times, and every reply is understood as what it says |
| Contracts.AnnouncementsPublish | order-service/internal/messaging/publisher.go:124-157 | an announcement of an accepted event is publishable and carries its own time |
| Breaker.CircuitBreaker.constructor | order-service/internal/resilience/breaker.go:114-122 | a new breaker is closed |
| Breaker.CircuitBreaker.SetStateLocked | order-service/internal/resilience/breaker.go:162-170 | a state change starts a new generation with no failures and no trial |
| Breaker.CircuitBreaker.CoolDownLocked | order-service/internal/resilience/breaker.go:156-160 | an open breaker turns half-open when its cool-down has elapsed |
| Breaker.CircuitBreaker.TryCall | order-service/internal/resilience/breaker.go:173-188 | admits a call when closed, one trial when half-open, none when open |
| Breaker.CircuitBreaker.Record | order-service/internal/resilience/breaker.go:191-217 | an outcome counts only in the generation that admitted the call |
| Breaker.CircuitBreaker.Guard | order-service/internal/resilience/do.go:31-69 | one call is admitted and its outcome recorded as classified, a panic as a failure |
| Breaker.ClassifyMeans | order-service/internal/resilience/do.go:31-69 | a call fails if it panicked, or failed by timeout or fault of the service without its caller giving up; it succeeds if it neither failed nor panicked |
| Breaker.BreakerInRuns | order-service/internal/resilience/breaker.go:156-217 | over all interleavings: the trial flag is one outstanding current trial, stale outcomes change nothing, a closed breaker opens exactly at the threshold-th failure in a row, and the trial closes or reopens it |
| Breaker.OpenHoldsInRuns | order-service/internal/resilience/breaker.go:156-188 | an open breaker admits nothing and stays open until its cool-down has elapsed |
| KeyCache.KeyCache.constructor | order-service/internal/auth/jwks_cache.go:28-43 | a new cache is empty |
| KeyCache.KeyCache.Enter | order-service/internal/auth/jwks_cache.go:64-98 | a caller is served a set only before its expiry, waits for a fetch in flight, is throttled, or becomes the one that fetches |
| KeyCache.KeyCache.Leave | order-service/internal/auth/jwks_cache.go:103-119 | publishing a fetch sets expiry, spacing and breaker together |
| KeyCache.SafeInRuns | order-service/internal/auth/jwks_cache.go:54-131 | over all interleavings at most one fetch is in flight and no expired set is handed out |
| KeyCache.AsksInRuns | order-service/internal/auth/jwks_cache.go:54-131 | over all interleavings a caller gets the last set fetched while it is younger than the TTL and has the key, waits, fetches or is throttled, exactly as the fetches so far decide |
| KeyCache.FetchesAreRare | order-service/internal/auth/jwks_cache.go:85-115 | under a clock that never goes back fetches keep the refresh interval, and the cool-down once failures reach the threshold, so a window W holds at most W/RefreshInterval + 1 starts |
| ReviewPaging.List | order-service/internal/review/service.go:167-203 | a page continues the list exactly and says where the rest begins, despite filter, skipped rows and look-ahead |
| ReviewPaging.PageExact | order-service/internal/review/service.go:167-203 | a page holds exactly the open reviews with the reason whose errand is REVIEW_REQUIRED between its two cursors, in ID order |
| ReviewPaging.FindOpen | order-service/internal/review/service.go:294-311 | paging finds the errand's open review, or there is none |
| ReviewPaging.ListAll | order-service/internal/review/service.go:161-203 | following the pages ends and gives the whole list |
| ReviewPaging.ListedExact | order-service/internal/review/service.go:161-222 | the list is exactly the open reviews with the reason whose errand is REVIEW_REQUIRED, each once, in ID order |

## Left out

- HTTP handlers, authentication middleware, configuration and the front end: plumbing around what is modelled.
- RabbitMQ connections, publisher confirms and topology: the model allows every loss, repetition and reordering instead.
- Outbox leases, attempts and backoff: any row may be published, resent, given up or requeued at any moment.
- Handling.DispatchesInRuns: the steps of a run move credit rows only; an event row stays PENDING there, and what it would publish is stated in `Contracts`.
- Order of outbox rows in the table: the outbox is keyed by its unique key.
- JSON text, UUID parsing, Unicode white space and normalisation: bodies are records, and predicates on Latin-1 characters stand for the text checks.
- Error messages and field lists: an error is its code.
- Wallet and reservation row IDs and the wallet version counter: rows are addressed by subject and order.
- Locks inside a transaction: a wallet command, a store write and a claimed batch are each one step.
- Store.ErrandStore.ClaimDue: the batches other claims hold are a given set; what other writers do to unlocked rows while a batch decides is a step before or after it. A transition out of REVIEW_REQUIRED with no open review aborts the batch as in the production store, where the fake store panics; no job decides one.
- Scheduler.Job.Drain: the clock stands still and nobody else writes while it drains; a context cancelled between two batches is not modelled.
- KeyCache.KeyCache.Enter: a caller whose context ends while it waits simply asks no more; retries inside one fetch count as one fetch.
- Breaker.CircuitBreaker.Record: the generation is unbounded, where the source wraps at 64 bits.
- ReviewPaging.List: the supplier version shown with each review comes from supplier-service and is not modelled.
- Listing errands for users, courier history, reminders' texts and settings: easy members beside the protocol.
- supplier-service and user-service: only the deletion fence they use is modelled.
