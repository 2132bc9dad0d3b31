# OpenPay: verified model

A Dafny model of OpenPay's payment orchestration and of its webhook worker, with
proofs of what every run keeps. It has two halves that meet at the outbox.

**Payments.** Payer authorise, merchant create, read, cancel and refund, admin
resolve, worker expiry and the reconciler all work on one versioned payment row,
an audit log, an outbox and an attempt table. `Machine` gives each operation as a
program of small steps, at most one store call each. `System` interleaves the
steps of any number of clients in any order; clients may stop anywhere and hold
stale snapshots. Clocks, connector answers, new ids, policies and database
failures come from an `Input` that may be anything. `Ledger` holds the invariant
of the database. `Service` is the same code in its own form: a class whose methods
loop over keys and rows and change the store object `Store.PgStore`; each method
is proved to do what its program does when run alone, so the theorems about
programs are theorems about the methods; `Calls` shows that any sequence of method
calls leads to a database that some run reaches.

**Worker.** `Outbox` drains records into deliveries, `Delivering` sends them,
`WorkerRuns` puts passes, stops, restarts and endpoint edits into one run.
`EndToEnd` feeds the worker with the outbox of the payment system.

**Pieces.** `Routing` ranks connectors, `Fingerprint` and `Ids` print and parse,
`Signature` signs and verifies webhooks, `RateLimit` counts requests.

| file | content |
|---|---|
| Wrappers, StableSort, Text | results, the stable sort and its independent definition, decimal and hex text |
| Ids, Status, Rows, Store | ids, state machine, rows, tables and the store class |
| Fingerprint, Routing, RoutingTheorems, RoutingChoice | request fingerprints, the ranking and its properties |
| Machine, Ledger, System | step programs, database invariant, interleaved runs |
| Theorems, Outcomes, PayerTheorems, AuthorizeTheorems, FallbackTheorems, ExpiryTheorems, Reconciling, ReconcileRun, IdempotencyTheorems | main results about payments |
| SingleRoute, Ambiguity, AmbiguousRows, BrokenPromises, ConcreteRuns, ManualRail | repeated approvals and ambiguous outcomes, with failing inputs |
| Service, Calls | the operations as methods, and method calls as runs |
| WorkerTables, Outbox, Delivering, WorkerRuns | the worker's tables, passes and runs |
| WorkerTheorems, NoLoss, QueuedOnce, Duplicates, CircuitRun, EndToEnd, Subscriptions | main results about the worker |
| Signature, RateLimit | webhook signatures and the rate limiter |

`dafny verify dfyconfig.toml` checks the whole project.

## Where the code differs from what is written about it

The model follows the code.

- docs/adr/0008-non-custodial.md:3 says that ambiguous outcomes stay in PROCESSING
  until reconciliation. Not always: the payer may reject the payment or approve it again
  with a failing connector; a policy may go on after the timeout to a connector that
  fails; and an admin may decide another attempt of the payment, for instance one at the
  manual rail that a policy went on to (`ConcreteRuns` and `ManualRail` have calls written
  out, `BrokenPromises` the general cases; the timed-out attempt itself is unknown to the
  manual connector and cannot be decided). Which events end it is
  `AmbiguousRows.LeavesProcessingIff`, in which runs the promise is kept
  `AmbiguousRows.PromiseKeptIff`, and that it is kept when none of the four happens
  `AmbiguousRows.AmbiguousStaysUntilReconciled`. A connector error that is itself
  called ambiguous is stored as a failure (`Ambiguity.AmbiguousErrorIsFailed`).
- An approval of a payment that is already Processing is routed again, so two
  connectors can settle it (`SingleRoute.OneAnswerPerPayment`,
  `BrokenPromises.ReapprovalAnswersTwice`, `ConcreteRuns.BothSettle`).
- docs/api/API-GUIDE.md:45 says that the same key and the same fingerprint give 200 and
  a replay. When both requests find the key free the second insert breaks the unique
  index and that call ends in Conflict (`IdempotencyTheorems.RaceConflictIff`,
  `ConcreteRuns.RaceIsRefused`).
- A manual rail answers RequiresAction, but Processing has no edge to it: the final
  write is refused and the payment stays in Processing (`Outcomes.FinishingIff`).
- Transitions to the same status are called idempotent but bump the version and
  write another audit and outbox row (`Rows.PaymentRequest.Transition`).
- docs/architecture/ARCHITECTURE.md:47 says retries have jitter. The jitter is below
  half a second and truncated away (`Delivering.BackoffIsExact`).
- Of several rules for one connector the first match counts, not the one with the
  highest priority; among equal defaults the last one wins, while the other lists
  keep their order (`RoutingTheorems.FirstRuleWins`, `RoutingTheorems.LastMaximalIsLast`).
- A ranking can name a connector twice when a tenant and the shared catalogue use
  one key (`RoutingTheorems.SharedKeyListedTwice`).
- A record whose subscribers all have open circuits is published without any
  delivery, and never gets one (`QueuedOnce.OpenIsSkippedForEver`,
  `CircuitRun.OpenCircuitLosesARecord`).
- A drain pass that stops between a delivery and the publication of its record queues
  that delivery again when it is repeated (`Duplicates.StoppedPassIsRepeated`).
- The query at crates/openpay-persistence/src/store.rs:443-451 orders a
  SELECT DISTINCT by a column it does not select, which PostgreSQL refuses. The model
  takes the set its WHERE clause means.

## Assumptions

- SHA-256 is any function to texts and HMAC-SHA256 (RFC 2104) any function to 32 bytes.
  Neither is taken to be free of collisions: where one would matter, the theorem names it
  in its conclusion.
- One worker process; its clock does not run backwards within a deliver pass
  (`WorkerRuns.Timely`); its updates of deliveries and endpoints succeed.
- An outbox id that is already taken is refused, as the primary key demands; ids are
  otherwise arbitrary and need not be fresh.

## Model

| member | source | states |
|---|---|---|
| System.Reachable | crates/openpay-persistence/src/store.rs:296-347 | In every state that any number of clients reach, their steps interleaved in any order, holding snapshots as old as they like and with connectors answering anything: row, audit log and outbox of each payment agree, outbox ids are distinct, attempts hang on payments that were really processed, payments and idempotency rows are in bijection; and what each client position relies on (for instance that its snapshot was once the row) is still true |
| System.RunExtends | crates/openpay-persistence/src/store.rs:312-346 | Along a run rows are only added: a payment keeps its immutable facts and its audit trail is only appended to |
| System.RunAloneKeeps | crates/openpay-application/src/authorize.rs:39-240 | A whole operation run on its own keeps the invariant from any starting position, and its answer is backed by the database |
| System.ApplyKeeps | crates/openpay-application/src/payments.rs:213-251 | A status change asked for with any snapshot ever handed out either commits consistently, with the requested status, or changes nothing |
| Theorems.LedgerAgrees | crates/openpay-application/src/payments.rs:213-251 | In every reachable state a payment's version, audit rows and outbox rows are equal in number; the audit rows form an unbroken chain from creation to the row's status, each a stutter or a legal edge; each outbox row carries the payment's immutable values and, after the first, the event type of its status; the payment has a method, a positive amount and at least 30 seconds to live |
| Theorems.AtMostFourChanges | crates/openpay-domain/src/status.rs:62-93 | A payment visits only eight statuses and really changes status at most four times, although the raw machine has a refund cycle |
| Theorems.OnceSettled | crates/openpay-domain/src/status.rs:62-75 | A payment that was ever Settled is Settled or Refunded |
| Theorems.AttemptsExcludeExpiry | crates/openpay-application/src/authorize.rs:85-97 | A payment with an attempt is never Pending, RequiresAction or Expired, however expiry, cancel and authorise interleave |
| Theorems.AuditNamesTheActor | crates/openpay-application/src/payments.rs:334-358 | Every audit row of every run names an actor that may write its status: only the system expires, only merchants create, cancel or refund, only payer, connector, reconciler or admin fail |
| Theorems.CommitNeedsCurrentSnapshot | crates/openpay-persistence/src/store.rs:314-337 | An event that changes a payment is a step of a client whose snapshot has the current version, and raises the version by exactly one |
| Theorems.OneCommitPerVersion | crates/openpay-persistence/src/store.rs:314-337 | Two commits to one payment started from different versions: of all writes from snapshots with one version at most one commits |
| Theorems.RefusalChangesNothing | crates/openpay-persistence/src/store.rs:312-319 | The step in which any operation is refused leaves every table as it was |
| SingleRoute.AttemptsAreDistinct | migrations/0001_init.sql:137-139 | In every run attempt ids are unique, and so are the provider references of each connector |
| ExpiryTheorems.ExpiryPassIff | crates/openpay-application/src/payments.rs:253-270 | A pass alone on the store, whose writes may fail: it lists the earliest rows that are due and Pending or RequiresAction, up to the limit; each whose write works becomes Expired with the next version and one row in each log, a row whose write fails and every other payment stay as they are, and the answer is the number of payments that changed |
| ExpiryTheorems.EarliestListed | crates/openpay-persistence/src/store.rs:462-480 | The query lists only rows that are due and Pending or RequiresAction, none twice, at most the limit, and one that it leaves out is due no earlier than any it lists |
| ExpiryTheorems.CountedIffCommitted | crates/openpay-application/src/payments.rs:257-268 | Whatever snapshot the pass holds, a row is counted exactly when its write has committed |
| Outcomes.StepMoves | crates/openpay-domain/src/status.rs:62-93 | In every reachable state one step changes a payment's status only as a table of moves per program position allows (for example: polling moves Processing to Authorized, Settled or Failed and nothing else) |
| Outcomes.OtherTenantFindsNothing | crates/openpay-persistence/src/store.rs:260-274 | Whatever the operation, asking for another tenant's payment ends in NotFound and changes nothing |
| Outcomes.CancelIff | crates/openpay-application/src/payments.rs:168-187 | An undisturbed cancel succeeds exactly on Pending, RequiresAction, Authorized or already Cancelled payments and writes the row, one audit row and one outbox row, field by field; otherwise nothing changes |
| Outcomes.RefundIff | crates/openpay-application/src/payments.rs:189-211 | An undisturbed refund succeeds exactly on Settled or PartiallyRefunded payments, with the same three rows; otherwise nothing changes |
| Outcomes.ReadExpiresIff | crates/openpay-application/src/payments.rs:153-166 | A read expires a payment, with its three rows, exactly when it is due and Pending or RequiresAction; otherwise it returns the row unchanged |
| Outcomes.FinishingIff | crates/openpay-application/src/authorize.rs:224-227 | The final write of an authorise call succeeds exactly for Processing, Authorized, Settled and Failed; any other answer, such as RequiresAction of a manual rail, is refused and the payment stays in Processing |
| Outcomes.FirstAnswerDecides | crates/openpay-application/src/authorize.rs:39-240 | A whole undisturbed first authorise call, from read to final write, with every row it leaves: Processing is written, the attempt of the connector ranked first is stored, and then an AUTHORIZED answer writes Authorized, SETTLED Settled, FAILED Failed, PROCESSING and AMBIGUOUS leave Processing, and any other answer ends in Conflict with the payment in Processing |
| Outcomes.RoutedCallEnds | crates/openpay-application/src/authorize.rs:99-240 | The same answers, written out, for an approval that found the payment in Processing |
| PayerTheorems.RejectIff | crates/openpay-application/src/authorize.rs:57-82 | An undisturbed rejection fails a payment that is Pending, RequiresAction, Processing, Authorized or RefundPending, returns an ended one as it is, and is refused on any other |
| PayerTheorems.ApprovalIsRoutedIff | crates/openpay-application/src/authorize.rs:57-97 | An undisturbed approval is routed exactly for Pending and RequiresAction (after writing Processing) and for Processing; an ended payment is returned as it is, any other is refused |
| PayerTheorems.DueIsReplayed | crates/openpay-application/src/authorize.rs:57-65 | Either decision on a payment that is due expires it and returns it expired |
| PayerTheorems.NoRouteIsRefused | crates/openpay-application/src/authorize.rs:99 | Without a route the approval is refused and a payment that was Pending stays in Processing |
| Reconciling.ReconcilePassKeeps | crates/openpay-application/src/authorize.rs:349-375 | A reconcile pass over any list, with any connector answers and failures, keeps the database invariant and only adds rows; the count is at most the length of the list |
| Reconciling.ReconcileIff | crates/openpay-application/src/authorize.rs:331-346 | Undisturbed polling of a Processing payment: refused and nothing changed when there is nothing to poll or no answer; AUTHORIZED writes Authorized, SETTLED Settled, FAILED Failed, each with its audit and outbox row; PROCESSING and AMBIGUOUS change nothing; any other answer is refused |
| Reconciling.LatestIsPolled | crates/openpay-application/src/authorize.rs:388-395 | What is polled is the latest of the payment's ambiguous and processing attempts, and in a consistent database there is something to poll as soon as there is one |
| Reconciling.ReconcileReadsOthers | crates/openpay-application/src/authorize.rs:310-313 | A payment that is not Processing is only read by reconcile: same store and same answer as a read |
| Reconciling.StalePassIff | crates/openpay-application/src/authorize.rs:349-375 | An undisturbed pass over the queried list gives each listed payment the status its connector answered when that is Authorized, Settled or Failed, leaves the other listed ones in Processing and every other payment alone, and counts exactly the answers a Processing payment can take |
| ReconcileRun.TwoRowsReconciled | crates/openpay-application/src/authorize.rs:349-375 | Written-out calls and a pass: two payments created, approved and timed out are listed by the query for every limit that has room, and the pass settles the one and fails the other as their connectors answer |
| Reconciling.ResolveIff | crates/openpay-api/src/admin.rs:741-813 | The admin's decision, case by case: unknown attempt, no reference or refused by the connector; else approval settles exactly payments that are Processing, Authorized or Settled, rejection fails exactly those that are Processing, Authorized or Failed, with the admin named in the audit row, and otherwise nothing changes |
| AuthorizeTheorems.AuthorizeIsBounded | crates/openpay-application/src/authorize.rs:99-227 | For every authorise call of every run that ends with an answer: the decision is the ranking of some policy for the payment; the keys to try are its first one when fallback is off, else as many as are ranked up to max_attempts and between one and eight; the keys tried are a prefix of these; all stored attempts but the last carry an allowed failure code, only the last can have succeeded; the status written is that of the last key tried |
| AuthorizeTheorems.EveryCallIsBounded | crates/openpay-application/src/authorize.rs:124-222 | The same bounds at every position of the loop and before the final write, in every run, so for calls that are refused later too; while another key is to be tried every stored attempt carries an allowed failure code |
| AuthorizeTheorems.NoConnectorTwice | crates/openpay-application/src/authorize.rs:99-110 | With distinct catalogue keys the list of keys to try has no duplicate |
| AuthorizeTheorems.SelectedIsFirst | crates/openpay-application/src/routing.rs:72-82 | The connector that a decision selects is the one ranked first, with the priority and the reason it has there |
| FallbackTheorems.FailureDecides | crates/openpay-application/src/authorize.rs:124-222 | One failure in the loop: the attempt row it leaves, field by field; the next key is tried exactly when fallback is on, a key and an attempt are left and the policy names the failure's code; otherwise Processing is to be written after a timeout and Failed after any other failure, in the name of this key |
| FallbackTheorems.DefaultGoesOnIff | crates/openpay-domain/src/routing.rs:74-104 | The default policy goes on exactly at the first of several keys and after a missing connector, an unavailable one or a timeout |
| FallbackTheorems.CaseIsIgnored | crates/openpay-domain/src/routing.rs:86-104 | Codes are compared letter by letter without regard to ASCII case |
| FallbackTheorems.MissingRowEndsCall | crates/openpay-application/src/authorize.rs:138-141 | A connector without a catalogue row ends the call with NotFound |
| AuthorizeTheorems.ProcessingIsReconcilable | crates/openpay-application/src/authorize.rs:179-221 | When authorise answers Ok with Processing, the attempt list holds an attempt to poll and that attempt has a provider reference |
| AuthorizeTheorems.ReconcilableListIsExact | crates/openpay-persistence/src/store.rs:439-460 | In every reachable state the reconcilable list is exactly the Processing payments for which `reconcilable_attempt` finds an attempt |
| AuthorizeTheorems.ReconcileOutcomes | crates/openpay-application/src/authorize.rs:331-346 | Whatever the connector answers, polling leaves a payment alone or moves it from Processing to Authorized, Settled or Failed |
| AmbiguousRows.LeavesProcessingIff | crates/openpay-domain/src/status.rs:62-75 | In every reachable state an event takes a payment out of Processing if and only if it is the committing step of a poll, a payer's rejection, an admin's decision or the end of an authorise call, with the current row and with Authorized, Settled or Failed to write |
| AmbiguousRows.PromiseKeptIff | docs/adr/0008-non-custodial.md:3 | The promise about the row (with an ambiguous attempt it is Processing until the reconciler writes) is kept in a run if and only if no event of the run is one of two: a step other than a poll that ends Processing while an ambiguous attempt is open, or one that stores an ambiguous attempt of a payment that has left Processing |
| AmbiguousRows.AmbiguousStaysUntilReconciled | docs/adr/0008-non-custodial.md:3 | The promise is kept in every run in which nobody rejects the payment or decides one of its attempts, no approving call goes on after finding it already Processing, and it is routed only under policies that stop at a timeout; everything else may interleave |
| BrokenPromises.RejectionBreaks | crates/openpay-application/src/authorize.rs:67-82 | Without the first condition: an undisturbed rejection fails the payment while its ambiguous attempt is open |
| BrokenPromises.DecisionBreaks | crates/openpay-api/src/admin.rs:741-813 | Likewise an admin's decision on any attempt of the payment that the manual connector knows: it settles or fails the payment while the ambiguous attempt is open |
| ManualRail.ActionIsRefused | crates/openpay-application/src/authorize.rs:193-227 | A call that passes over a timeout to a rail that asks for an action: both attempts are stored, the final write is refused, and the payment stays in Processing |
| ManualRail.DecidedAfterTimeout | crates/openpay-api/src/admin.rs:741-813 | Written-out calls: create, approve with a timeout at the bank passed over to the manual rail, and the admin approves the manual attempt; before it the promise holds, after it the payment is Settled and the promise broken |
| BrokenPromises.SecondApprovalBreaks | crates/openpay-application/src/authorize.rs:85-97 | Without the second condition: a second approval that finds the payment Processing is routed again, and a failing connector fails the payment |
| BrokenPromises.PolicyBreaks | crates/openpay-application/src/authorize.rs:193-221 | Without the third: where a timeout can be passed over, some answers of the connectors fail the payment within one call |
| ConcreteRuns.RejectedAfterTimeout | crates/openpay-application/src/authorize.rs:67-82 | Written-out calls: create, approve with a timeout at the only connector, reject; the payment is Failed and the promise broken |
| ConcreteRuns.FailedAfterTimeout | crates/openpay-application/src/authorize.rs:85-97 | Written-out calls: create, approve with a timeout at the only connector, approve again with a failure; the same end |
| ConcreteRuns.PassedOverTimeout | crates/openpay-application/src/authorize.rs:193-221 | Written-out calls: create, and approve once under the default policy with two connectors, a timeout and a failure; the same end |
| Ambiguity.AmbiguousStaysIff | crates/openpay-application/src/authorize.rs:99-227 | For one routed call on the current row, as long as unused ids and references exist: whatever the connectors answer, the call itself leaves the payment in Processing when it recorded an ambiguous attempt, if and only if it cannot pass over a timeout: TIMEOUT is not allowed, there is one key, or at every key but the last that the call can reach the reference of an earlier timeout is taken |
| Ambiguity.AmbiguousStays | crates/openpay-application/src/authorize.rs:224-227 | In every run of the system, a finished call that recorded an ambiguous attempt and whose policy does not go on after a timeout wrote Processing itself |
| Ambiguity.TimeoutKeptIff | crates/openpay-application/src/authorize.rs:193-221 | A timed-out attempt ends the loop with Processing exactly when `should_try_next` refuses TIMEOUT for the remaining keys |
| Ambiguity.SecondTimeoutIsRefused | crates/openpay-application/src/authorize.rs:194-212 | A second timeout of one connector on one payment makes the call fail, because the invented provider reference is already taken |
| Ambiguity.AmbiguousErrorIsFailed | crates/openpay-application/src/authorize.rs:198-202 | A connector error that is itself named ambiguous is stored as a failed attempt that reconciliation never polls |
| SingleRoute.OneAnswerPerPayment | crates/openpay-application/src/authorize.rs:85-97 | In every run in which no approving call goes on after finding the payment already Processing, at most one of its attempts was answered by a connector, so at most one succeeded |
| ConcreteRuns.BothSettle | crates/openpay-application/src/authorize.rs:85-97 | A run in which one does: two interleaved approvals, and both connectors settle the payment |
| BrokenPromises.ReapprovalAnswersTwice | crates/openpay-application/src/authorize.rs:85-97 | And in every run: wherever an approving call is about to go on with a payment that it found Processing and that has an answer, some continuation stores a second answer |
| IdempotencyTheorems.Bijection | crates/openpay-persistence/src/store.rs:170-258 | After any race of creates, payments and idempotency rows are in bijection and equal in number, a tenant has one payment per key, and every stored fingerprint is that of its payment |
| IdempotencyTheorems.LookupDecides | crates/openpay-persistence/src/store.rs:178-205 | Free key: go on to insert; key held by a payment with the same merchant, order id, amount and currency: replay that payment; key held by one that differs in any of them: IdempotencyMismatch, unless the two different texts have one digest |
| IdempotencyTheorems.CreateIff | crates/openpay-application/src/payments.rs:84-149 | A whole undisturbed create: a taken key replays its payment when the four values agree (or the digests collide) and is IdempotencyMismatch otherwise, changing nothing; a free key makes exactly one payment as requested, with max(30, expires_in_seconds) to live and ACCOUNT_TO_ACCOUNT as default method, and exactly one row, field by field, in each log, unless the new id is taken |
| IdempotencyTheorems.InsertIff | crates/openpay-persistence/src/store.rs:207-258 | The insert ends in Conflict with nothing changed exactly when the id or the key is taken by then, however alike the two requests are |
| IdempotencyTheorems.RaceConflictIff | crates/openpay-persistence/src/store.rs:227-234 | In any run: a create whose lookup found the key free, with any events before its insert, ends in Conflict exactly when the id or the key was taken in between; it never replays |
| ConcreteRuns.RaceIsRefused | crates/openpay-persistence/src/store.rs:227-234 | A run of six events: one request sent twice at once; the first sender gets the payment, the second Conflict |
| IdempotencyTheorems.CreateReturnsRequested | crates/openpay-application/src/payments.rs:84-149 | Every answered create, replayed or not and whoever won the race, holds a stored payment with exactly the requested values, or with a text that collides with the requested one |
| IdempotencyTheorems.CreatedAsRequested | crates/openpay-application/src/payments.rs:84-149 | In every run an answered create that is no replay made its payment as requested in every field, lifetime and methods included, and these facts are stored |
| IdempotencyTheorems.SameKeySamePayment | migrations/0001_init.sql:100-101 | Two answered creates of one tenant and key returned the same payment |
| IdempotencyTheorems.ReplayChangesNothing | crates/openpay-persistence/src/store.rs:191-205 | The lookup, a mismatch and a replay change no table |
| Fingerprint.TextInjective | crates/openpay-application/src/payments.rs:321-332 | For one key the hashed text determines merchant, order id, amount and currency, even when order id or key contain the separator |
| Fingerprint.TextNotInjectiveAcrossKeys | crates/openpay-application/src/payments.rs:321-332 | Across keys it does not: two requests with the same text |
| Fingerprint.TextDeterminesKey | crates/openpay-application/src/payments.rs:321-332 | For keys of one length, and for keys without the separator, the text determines all five values |
| Service.PaymentService.Apply | crates/openpay-application/src/payments.rs:213-251 | The method does what the step of the interleaved model does, with the expected version and the audit "from" both taken from the snapshot |
| Service.PaymentService.CreatePayment | crates/openpay-application/src/payments.rs:84-149 | Final store and answer are those of the create program run alone |
| Service.PaymentService.GetPayment | crates/openpay-application/src/payments.rs:153-166 | Reads, expires a due payment first, and continues as the program that asked |
| Service.PaymentService.CancelPayment | crates/openpay-application/src/payments.rs:168-187 | Final store and answer are those of the cancel program run alone |
| Service.PaymentService.RefundPayment | crates/openpay-application/src/payments.rs:189-211 | Final store and answer are those of the refund program run alone |
| Service.PaymentService.ExpireStalePayments | crates/openpay-application/src/payments.rs:253-270 | The batch loop and its counter do what the expiry program does; one failure does not stop the batch |
| Service.PaymentService.AuthorizePayment | crates/openpay-application/src/authorize.rs:39-97 | Final store and answer are those of the authorise program run alone |
| Service.PaymentService.RouteAndTry | crates/openpay-application/src/authorize.rs:99-227 | The fallback loop with its mutable last key, last status and tried list does what the authorise steps do |
| Service.PaymentService.ReconcilePayment | crates/openpay-application/src/authorize.rs:295-346 | Final store and answer are those of the reconcile program run alone |
| Service.PaymentService.ReconcileStaleAttempts | crates/openpay-application/src/authorize.rs:349-375 | Reconciles a duplicate-free list of at most `limit` listed payments, all of them when there is room, counting the answers that are not errors |
| Service.PaymentService.ResolveManualAttempt | crates/openpay-api/src/admin.rs:741-813 | Final store and answer are those of the admin program run alone |
| Calls.CallIsARun | crates/openpay-application/src/authorize.rs:39-240 | A client whose steps nobody interrupts ends with the store and the answer of its program run alone |
| Calls.CallsAreRuns | crates/openpay-application/src/payments.rs:73-318 | For every sequence of service calls on an empty store there is a run of the interleaved system that leads to the same database |
| Calls.CallsKeepInvariant | crates/openpay-application/src/payments.rs:73-318 | So after any sequence of calls the database satisfies the invariant |
| Store.PgStore.TransitionPayment | crates/openpay-persistence/src/store.rs:296-347 | Lock, version check, state machine, then row, audit and outbox together, or no change and the error of the first check that fails |
| Store.PgStore.InsertPaymentRows | crates/openpay-persistence/src/store.rs:207-258 | Four rows in one commit, or a unique index refuses and nothing changes |
| Store.PgStore.AddAttempt | crates/openpay-persistence/src/store.rs:349-381 | Appends the attempt unless an id, a provider reference or the foreign key refuses it |
| Store.PgStore.ListExpirablePayments | crates/openpay-persistence/src/store.rs:462-480 | Exactly the visited rows that are past expiry and Pending or RequiresAction, ordered by expiry; rows that expire together in visiting order |
| Store.EarliestAreListed | crates/openpay-persistence/src/store.rs:462-480 | With a limit, a due row that is left out expires no earlier than any row that is listed |
| Store.PgStore.ListReconcilablePayments | crates/openpay-persistence/src/store.rs:439-460 | Rows that match the WHERE clause, none twice, at most `limit`, and all of them when fewer |
| Store.ReconcilableSetIsExact | crates/openpay-application/src/authorize.rs:388-395 | The join in the query and the search from the end of the ordered attempt list agree on whether there is something to poll |
| Rows.PaymentRequest.Transition | crates/openpay-domain/src/payment.rs:35-44 | An illegal edge changes nothing; anything else, a stutter included, sets the status and bumps the version |
| Rows.ExpiryOnlyBeforeProcessing | crates/openpay-domain/src/payment.rs:60-75 | Expiry targets exactly due payments in Pending or RequiresAction |
| Status.ChangeRaisesRank | crates/openpay-domain/src/status.rs:62-75 | Every edge between statuses the service visits raises a rank of at most 4 |
| Status.AfterProcessingClosed | crates/openpay-domain/src/status.rs:62-75 | No edge leads from Processing or later back to Pending, RequiresAction or Expired |
| Status.RawMachineCycles | crates/openpay-domain/src/status.rs:70-73 | The raw machine does have a cycle between RefundPending and PartiallyRefunded and an edge from RefundPending to Failed |
| Routing.EvaluatePolicy | crates/openpay-application/src/routing.rs:11-94 | The loop with its seen-set, the sort, the default and the appended tail compute the declarative ranking; an error exactly when it is empty |
| RoutingTheorems.RankingEmptyIff | crates/openpay-application/src/routing.rs:69-72 | The ranking is empty exactly when no rule hits an enabled connector and no connector is eligible |
| RoutingTheorems.RankedWithFallback | crates/openpay-application/src/routing.rs:57-67 | With fallback a key is ranked exactly when a matching rule selects it (and it is enabled) or an eligible connector has it |
| RoutingTheorems.RankedWithoutFallback | crates/openpay-application/src/routing.rs:41-55 | Without fallback exactly the keys selected by matching rules are ranked, or at most the one default |
| RoutingTheorems.RankingDistinctIff | crates/openpay-application/src/routing.rs:26-67 | The ranking is duplicate-free exactly when no two eligible connectors outside its rule part share a key |
| RoutingTheorems.DistinctCatalogueDistinctRanking | crates/openpay-application/src/routing.rs:26-67 | Distinct catalogue keys give a duplicate-free ranking |
| RoutingTheorems.SharedKeyListedTwice | crates/openpay-persistence/src/store.rs:765-778 | The default policy and a catalogue in which a tenant's and a shared connector have one key, written out: that key is ranked twice |
| RoutingTheorems.PartsAreStableDescending | crates/openpay-application/src/routing.rs:39-65 | The rule part and the fallback part are the one stable descending order of their candidates |
| RoutingTheorems.LastMaximalIsLast | crates/openpay-application/src/routing.rs:42-46 | The default is the last of the eligible connectors with the highest priority |
| RoutingTheorems.FirstRuleWins | crates/openpay-application/src/routing.rs:26-37 | Of two matching rules for one connector the first counts, even when the second has the higher priority |
| RoutingChoice.RuleHeadsIff | crates/openpay-application/src/routing.rs:29-42 | One rule: its connector heads the ranking exactly when every condition that the rule states (currency, method, health, minimum, maximum) holds and a connector of that key is enabled |
| RoutingChoice.DefaultHeads | crates/openpay-application/src/routing.rs:44-58 | No rule applies: the ranking is headed by the last of the catalogue rows of highest priority among those that are enabled, not unhealthy and have one of the payment's methods |
| RoutingChoice.RuleEntriesIff | crates/openpay-application/src/routing.rs:29-42 | The entries by rule are exactly those of the rules that apply and are the first for their connector, with their own priority |
| RoutingChoice.FallbackEntriesIff | crates/openpay-application/src/routing.rs:60-70 | The entries by fallback are exactly the other connectors that can take the payment, with their own priority, and there are none when fallback is off |
| RoutingChoice.RankingIsOrdered | crates/openpay-application/src/routing.rs:42-70 | Rules and default come before the fallback, and in each part priorities do not rise |
| RoutingChoice.RuleTieKeepsOrder | crates/openpay-application/src/routing.rs:42 | Two rules of one priority stay in the order of the policy |
| RoutingChoice.SpareTieKeepsOrder | crates/openpay-application/src/routing.rs:68 | Two spare connectors of one priority stay in the order of the catalogue |
| StableSort.StableSortUnique | crates/openpay-application/src/routing.rs:39 | A sequence is ordered by key with every key's elements in their original order if and only if it is the result of the sort |
| Outbox.OutboxStore.DrainOutbox | crates/openpay-worker/src/lib.rs:231-294 | Wherever a pass is stopped between store calls, it has written exactly a prefix of its declarative trace, and the whole trace when enough calls succeed |
| Outbox.OutboxStore.FanOut | crates/openpay-worker/src/lib.rs:240-287 | The endpoint loop with its set of probed endpoints inserts exactly the deliveries that the declarative rule names |
| Outbox.ProbedStep | crates/openpay-worker/src/lib.rs:252-266 | The set of probed endpoints equals "wanted by an earlier record of the batch" for every half-open endpoint |
| NoLoss.PassQueuesBeforePublishing | crates/openpay-worker/src/lib.rs:235-291 | A pass stopped anywhere: each record it published has its delivery for every closed endpoint that wants it |
| NoLoss.PublishedIsNeverLost | crates/openpay-worker/src/lib.rs:231-294 | In any run with any stops and restarts: once a record is published, every endpoint that wanted it and was closed in the publishing pass has a delivery with exactly that event id, for ever |
| NoLoss.OnlyDrainPublishes | crates/openpay-persistence/src/store.rs:571-579 | Nothing but a drain pass publishes a record, and the row tells when it did |
| Duplicates.CleanRunsQueueOnce | crates/openpay-worker/src/lib.rs:231-294 | In every run whose passes stop, if at all, right after a publication, no two delivery rows share endpoint and event, and every queued event is published |
| Duplicates.StoppedPassIsRepeated | crates/openpay-worker/src/lib.rs:278-291 | A pass that stops right after any delivery, wherever in the batch: the next pass, however much later, starts with that record and queues that endpoint and event a second time |
| Duplicates.QueuedTwice | crates/openpay-worker/src/lib.rs:278-291 | A run of four events, written out, with two delivery rows for one endpoint and event |
| QueuedOnce.PublishedDeliveryIff | crates/openpay-worker/src/lib.rs:235-291 | In every run, once a record is published an endpoint has a delivery for it, then and for ever, if and only if it had one before the publishing pass or that pass was to queue one |
| QueuedOnce.OpenIsSkippedForEver | crates/openpay-worker/src/lib.rs:252-256 | A record published while the circuit of an endpoint was open, and not queued before, never gets a delivery for that endpoint |
| QueuedOnce.EveryDeliveryHasItsRecord | crates/openpay-worker/src/lib.rs:268-283 | In every reachable state of the worker each delivery row carries the id of an outbox row whose tenant and merchant are those of the delivery's endpoint; the fresh-id fallback is never taken |
| Subscriptions.OnlySubscribersAreQueued | crates/openpay-persistence/src/store.rs:585-597 | In every run a delivery that a drain pass adds is a fresh pending row, due at once, for an endpoint that is active in the pass's table, belongs to the record's tenant and merchant, takes every event or names the text of this one, and has fewer than 20 failures or has been left alone for 60 seconds |
| Subscriptions.SubscribersHaveIt | crates/openpay-worker/src/lib.rs:244-266 | Beyond the deliveries from before the publishing pass: for ever, an endpoint with fewer than 20 failures has one for the record exactly if it is such a subscriber, an open one never |
| Subscriptions.BatchIsEarliest | crates/openpay-persistence/src/store.rs:560-569 | A drain pass reads the 50 earliest unpublished rows, or all, in order of creation |
| Subscriptions.JobsAreEarliest | crates/openpay-persistence/src/store.rs:124-152 | A deliver pass reads the 25 earliest deliveries that are pending or retrying and whose retry time, if any, has come |
| Subscriptions.ChangeIsSentAs | crates/openpay-domain/src/status.rs:95-109 | In every run the creation is sent as payment.created and every later change under the written-out name of the status it wrote |
| EndToEnd.WorkerMirrors | crates/openpay-application/src/payments.rs:368-397 | Every record given to the worker is a row of its own in the worker's table, printed, in order, whatever passes run in between |
| EndToEnd.CommittedChangeIsQueued | crates/openpay-worker/src/lib.rs:231-294 | For any run of the payment system and any run of a worker fed with a prefix of its outbox: a published record of a committed change has a delivery under that change's event id for every closed endpoint that wanted it |
| WorkerTables.PrintedKeepsIds | crates/openpay-application/src/payments.rs:374-376 | The worker reads the event id and the merchant of a printed record back as they were |
| WorkerTables.PrintedTexts | crates/openpay-application/src/payments.rs:368-397 | The printed ids are evt_ and mch_ followed by the hexadecimal bytes |
| WorkerTheorems.CircuitIsRespected | crates/openpay-worker/src/lib.rs:57-71 | In every run: an endpoint with fewer than 20 failed sends since its last success gets every subscribed record of a batch; from 20 on none while its row changed less than 60 seconds ago, and after that exactly one, for the earliest record it wants |
| WorkerTheorems.PassTouchesEndpoints | crates/openpay-persistence/src/store.rs:819-844 | In every run a deliver pass leaves an endpoint's row with the time of the last send to it, so the cooldown starts there, and untouched when there was none |
| CircuitRun.OpenCircuitLosesARecord | crates/openpay-worker/src/lib.rs:57-71 | A written-out run, for every limit of tries above 20: twenty failed sends of one delivery open the circuit, and the next record the endpoint wants is published without a delivery for it |
| WorkerRuns.Reachable | crates/openpay-worker/src/lib.rs:296-342 | In every run each delivery row tells exactly how often it was tried, what the last try answered and when; all but a delivering try failed; after a failure the retry time is exactly the backoff after the clock reading of that failure, and tries are spaced by it; each failure count is the number of failed sends since the last success |
| WorkerTheorems.TriesAreBounded | crates/openpay-worker/src/lib.rs:304-333 | Pending means no failure, Retrying 1 to max-1, DeadLettered exactly max(1, max); a delivery is tried at most max(1, max) times |
| WorkerTheorems.FinalIsFinal | crates/openpay-persistence/src/store.rs:124-152 | Delivered and DeadLettered rows are never changed by any event |
| WorkerTheorems.DeadLetterTakesTime | crates/openpay-worker/src/lib.rs:316-333 | The m tries of a dead-lettered delivery span at least 2^m - 2 seconds for m up to 11 and 2046 + 1024 (m - 11) beyond |
| WorkerTheorems.PassShrinksDueSet | crates/openpay-persistence/src/store.rs:124-152 | A pass at one instant takes exactly min(25, due) deliveries out of the due set and adds none |
| WorkerTheorems.RepeatedPassesDrain | crates/openpay-worker/src/lib.rs:296-342 | n passes at one instant leave max(0, due - 25 n) deliveries due |
| Delivering.BackoffIsExact | crates/openpay-worker/src/lib.rs:422-427 | The delay is exactly 2^min(attempt, 10) seconds: the jitter is truncated away and the cap is never reached |
| Delivering.BatchFacts | crates/openpay-persistence/src/store.rs:124-152 | The batch holds due deliveries, none twice, and is full or complete |
| Delivering.DeliveryStore.PendingDeliveriesFull | crates/openpay-persistence/src/store.rs:124-152 | The loop loads the due rows in batch order |
| Delivering.DeliveryStore.DeliverWebhooks | crates/openpay-worker/src/lib.rs:296-342 | The loop over copies loaded at the start, written back as whole rows, has the effect of sending the jobs one after the other |
| Delivering.DeliveryStore.SendAndRecord | crates/openpay-worker/src/lib.rs:304-340 | One send changes exactly its delivery, its endpoint's counter and the log of sends |
| Delivering.DeliveryStore.RecordResult | crates/openpay-persistence/src/store.rs:819-844 | Success clears an endpoint's failure count, failure adds one; both touch the row |
| Signature.FreshlySignedVerifiesIff | crates/openpay-crypto/src/webhook.rs:6-41 | A freshly signed webhook verifies exactly when abs(now - t) is at most the tolerance, for every secret, body and i64 timestamp |
| Signature.SignedVerdict | crates/openpay-crypto/src/webhook.rs:6-41 | The whole verdict on a header made for one body when it comes with any body: overflow, expired, accepted exactly when the two codes agree, else SignatureMismatch; the signed text and the header are written out |
| Signature.SpacedHeaderReadsBack | crates/openpay-crypto/src/webhook.rs:23-24 | Blanks after the comma of a header do not matter |
| Signature.MissingPartIsMalformed | crates/openpay-crypto/src/webhook.rs:31-32 | Without a time or without a code a header is malformed |
| Signature.BadHexIsMalformed | crates/openpay-crypto/src/hmac_util.rs:44 | A code that is no hexadecimal text is malformed, once the clock has been looked at |
| Signature.SignatureBindsMessage | crates/openpay-crypto/src/webhook.rs:14-41 | A signature made for one time and body is accepted for no other, unless two different messages, which the lemma names, have one MAC |
| Signature.MessageInjective | crates/openpay-crypto/src/webhook.rs:7-9 | The signed text determines timestamp and body |
| Signature.HeaderReadsBack | crates/openpay-crypto/src/webhook.rs:23-30 | Splitting a printed header at commas and reading its parts gives back timestamp and signature |
| Signature.XorFoldZero | crates/openpay-crypto/src/hmac_util.rs:49-53 | The XOR fold is zero exactly when the byte sequences are equal |
| Signature.SignWebhook | crates/openpay-crypto/src/webhook.rs:6-12 | The message buffer and the format give the printed header |
| Signature.VerifyWebhook | crates/openpay-crypto/src/webhook.rs:14-41 | The loop over header parts computes the declarative verdict, error by error |
| Signature.VerifyHmac | crates/openpay-crypto/src/hmac_util.rs:39-58 | The comparison loop decides equality of the digests; bad hex is Malformed |
| Text.DecimalRoundTrip | crates/openpay-crypto/src/webhook.rs:26 | Parsing a printed i64 gives it back |
| Text.SignsAreRead | crates/openpay-crypto/src/webhook.rs:26 | Digits are read without a sign and with either sign, exactly when the value fits an i64 |
| Text.OnlyDigitsAreRead | crates/openpay-crypto/src/webhook.rs:26 | No other text is read as a timestamp |
| Text.HexRoundTrip | crates/openpay-crypto/src/hmac_util.rs:44 | Decoding a printed byte string gives it back |
| Text.HexIsLowerCase | crates/openpay-crypto/src/hmac_util.rs:44 | Two digits a byte, the high one first, printed in lower case and read in both |
| Ids.PrefixedRoundTrip | crates/openpay-domain/src/ids.rs:56-72 | Printing and parsing an id gives the same 128 bits, for every prefix |
| Ids.OtherFormsParse | crates/openpay-domain/src/ids.rs:56-72 | An id is also read without its prefix, and with hyphens with or without it |
| Ids.WrongPrefixRefused | crates/openpay-domain/src/ids.rs:56-72 | An id printed with one three-letter prefix is refused under any other |
| RateLimit.SpanBound | crates/openpay-api/src/middleware/mod.rs:73-96 | For every arrival sequence and whether or not EXPIRE succeeds, a span [from, from + 60 s) admits at most 2 * limit - 1 requests of a key |
| RateLimit.SpanBoundIsReached | crates/openpay-api/src/middleware/mod.rs:73-96 | That bound is reached |
| RateLimit.ClosedSpanBound | crates/openpay-api/src/middleware/mod.rs:73-96 | A 60-second span with both its ends admits at most 2 * limit |
| RateLimit.ClosedSpanBoundIsReached | crates/openpay-api/src/middleware/mod.rs:73-96 | That bound is reached too |
| RateLimit.WindowBound | crates/openpay-api/src/middleware/mod.rs:73-96 | A window admits at most limit requests, whatever the counter before it |
| RateLimit.StuckKeyStaysRejected | crates/openpay-api/src/middleware/mod.rs:80-83 | A key whose EXPIRE failed admits only what was left of its first window, for ever |
| RateLimit.Limiter.Enforce | crates/openpay-api/src/middleware/mod.rs:73-96 | INCR, EXPIRE on the first, compare with max(1, limit); nothing changes when the backend is down |
| RateLimit.Limiter.EnforceAll | crates/openpay-api/src/middleware/mod.rs:73-96 | For any sequence of requests with any keys, backend up or down, the number of requests of one key let through in a span is the number admitted from that key's own arrivals, of which the bounds speak |

## Left out

- Several workers at once: records and deliveries are fetched without a row claim, so two workers may send twice; all delivery results are for one worker.
- A deliver pass stopped between a send and the update of its row: the send is then repeated; the model's deliver passes are whole.
- Commits whose reply is lost: a failing store call has changed nothing in the model.
- 32-bit overflow of version, attempt_count and failure_count.
- Order of the reconcilable list, which is any list the WHERE clause allows, and the order of rows that expire at the same instant, which is an input.
- Several clock readings in one drain pass: the model takes one; endpoint edits happen between passes.
- Identity of endpoints and deliveries is their position in the table; row ids of audit rows are left out.
- Fields that no decision reads: description, return_url, metadata, scenario, routing_policy_id, connector_id, rail_type, safe messages, settled_at.
- The merchant lookup before a create, and the QR view after it.
- JSON: rules and fallback come parsed, the outbox payload is a record with its fields.
- Explanation texts of a routing decision, apart from whether a rule, the default or the fallback chose the connector.
- Braced and URN forms of UUIDs, which the parser also accepts.
- Strings are sequences of characters, not UTF-8; trimming knows ASCII white space.
- Sorting in place: lists are sorted by the function `StableSort.Sort`.
- Configuration and operator overlays: the attempt limit and the rate limit are constant in a run.
- QR tokens and nonces, secrets, API keys, JWT, HTTP routing, dashboards, SDKs.
- Webhook URL and IP filtering and the HTTP request itself: a send is an arbitrary success or failure.
- Connectors themselves: every answer is possible, which includes theirs. The admin operation's call into the manual connector is a success or a failure.
- `replay_connector_callback` and metrics, which write nothing to a payment beyond the expiry on read.
- Store.ListAttempts: `ORDER BY created_at` is modelled as one stable order, the same at every call. For attempts created at the same instant SQL leaves the order open, so there the attempt that is polled may be another; where creation instants differ the model is exact.
- Outbox.FetchPending: the same holds for the order of a batch of records.
- Duplicates.StoppedPassIsRepeated: relies on that order being the same in both passes; for records created at the same instant the repeated pass may take another one first.
- WorkerTheorems.CircuitIsRespected: the one record that a half-open circuit lets through is the first in that order; among records created at the same instant it may be another.
- Theorems.OneCommitPerVersion: says nothing about which of the competing writes commits.
- WorkerTheorems.RepeatedPassesDrain: the clock stands still, so deliveries that become due later are not counted.
