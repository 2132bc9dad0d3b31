/** What each operation achieves: who may move a payment where, and when an undisturbed call succeeds. */
module Outcomes {
  import opened Wrappers
  import opened Ids
  import opened Status
  import opened Rows
  import opened Store
  import opened Routing
  import opened Machine
  import opened Ledger
  import opened System
  import opened Service

  // ----- Who may move a payment where -----

  /** The moves open to each program position, and the guard each needs. */
  predicate MayMove(pc: Pc, x: Input, from: PaymentStatus, to: PaymentStatus) {
    match pc
    case Fetched(p, Cancel(_)) => from in {Pending, Authorized, Cancelled} && to == Cancelled
    case Fetched(p, Refund(_)) => from == Settled && to == Refunded
    case Fetched(p, _) => from == Pending && to == Expired && x.now >= p.expiresAt
    case Have(_, Authorize(true)) => from == Pending && to == Processing
    case Have(_, Authorize(false)) => from in {Pending, Processing, Authorized} && to == Failed
    case Have(_, Resolve(true, _)) => from in {Processing, Authorized, Settled} && to == Settled
    case Have(_, Resolve(false, _)) => from in {Pending, Processing, Authorized, Failed} && to == Failed
    case Finishing(run) => from == Processing && to == run.lastStatus && to in {Processing, Authorized, Settled, Failed}
    case Polling(_, _) =>
      from == Processing && to in {Authorized, Settled, Failed} && x.fetched.Fetches?
          && to == IntoPaymentStatus(x.fetched.status)
    case Expiring(due, asOf, _) => due != [] && from == Pending && to == Expired && asOf >= due[0].expiresAt
    case _ => false
  }

  /** A status change is made from the current row, or not at all. */
  lemma ApplyWrites(db: Db, held: Payment, next: PaymentStatus, actor: Actor, event: EventType, x: Input, id: Uuid)
    requires id in db.payments
    ensures var db' := ApplyStatus(db, held, next, actor, event, x).0;
      id in db'.payments
      && (db'.payments[id] == db.payments[id]
          || (id == held.id && db.payments[id].version == held.version
              && db'.payments[id].status == next && Legal(db.payments[id].status, next)))
  {
  }

  lemma CurrentVisited(sha: string -> string, db: Db, held: Payment)
    requires Inv(sha, db) && Known(db, held)
    ensures held.id in db.payments && Visited(held.status)
    ensures db.payments[held.id].version == held.version ==> db.payments[held.id].status == held.status
  {
    hide AttemptsInv, IdempotencyInv, OutboxInv;
    if db.payments[held.id].version == held.version { CurrentSnapshot(db, held); }
    HeldVisited(db, held);
  }

  lemma HeldVisited(db: Db, held: Payment)
    requires LedgerInv(db) && Known(db, held)
    ensures Visited(held.status)
  {
    assert PaymentOk(db, held.id);
    assert RowFits(db.payments[held.id], AuditTrail(db.audit, held.id), OutboxTrail(db.outbox, held.id),
        held.version - 1);
  }

  lemma ApplyMoves(sha: string -> string, db: Db, held: Payment, next: PaymentStatus, actor: Actor,
        event: EventType, x: Input, id: Uuid)
    requires Inv(sha, db) && Known(db, held) && id in db.payments
    ensures var db' := ApplyStatus(db, held, next, actor, event, x).0;
      id in db'.payments
      && (db'.payments[id] == db.payments[id]
          || (id == held.id && Visited(held.status) && held.status == db.payments[id].status
              && db'.payments[id].status == next && Legal(held.status, next)))
  {
    hide Inv, Known, ApplyStatus, Legal, Visited;
    ApplyWrites(db, held, next, actor, event, x, id);
    CurrentVisited(sha, db, held);
  }

  ghost predicate MovedBy(pc: Pc, x: Input, db: Db, db': Db, id: Uuid)
    requires id in db.payments
  {
    id in db'.payments
    && (db'.payments[id] == db.payments[id] || MayMove(pc, x, db.payments[id].status, db'.payments[id].status))
  }

  lemma FetchedMoves(sha: string -> string, db: Db, held: Payment, goal: Goal, x: Input, id: Uuid)
    requires Inv(sha, db) && Known(db, held) && id in db.payments
    ensures MovedBy(Fetched(held, goal), x, db, StepFetched(db, held, goal, x).0, id)
  {
    hide Inv, Known, ApplyStatus;
    match goal
    case Cancel(actor) => ApplyMoves(sha, db, held, Cancelled, Merchant(actor), PaymentCancelled, x, id);
    case Refund(actor) => ApplyMoves(sha, db, held, Refunded, Merchant(actor), PaymentRefunded, x, id);
    case _ => ApplyMoves(sha, db, held, Expired, SystemExpiry, PaymentExpired, x, id);
  }

  lemma HaveMoves(sha: string -> string, db: Db, held: Payment, goal: Goal, x: Input, id: Uuid)
    requires Inv(sha, db) && Known(db, held) && id in db.payments
    ensures MovedBy(Have(held, goal), x, db, StepHave(db, held, goal, x).0, id)
  {
    hide Inv, Known, ApplyStatus, ListAttempts;
    match goal
    case Authorize(approve) =>
      ApplyMoves(sha, db, held, Failed, DemoWallet, PaymentFailed, x, id);
      ApplyMoves(sha, db, held, Processing, DemoWallet, PaymentProcessing, x, id);
    case Resolve(approves, admin) =>
      ApplyMoves(sha, db, held, Settled, Admin(admin), PaymentSettled, x, id);
      ApplyMoves(sha, db, held, Failed, Admin(admin), PaymentFailed, x, id);
    case _ =>
  }

  lemma PollingMoves(sha: string -> string, db: Db, held: Payment, a: Attempt, x: Input, id: Uuid)
    requires Inv(sha, db) && Known(db, held) && held.status == Processing && id in db.payments
    ensures MovedBy(Polling(held, a), x, db, StepPolling(db, held, x).0, id)
  {
    hide Inv, Known, ApplyStatus;
    if x.fetched.Fetches? {
      var next := IntoPaymentStatus(x.fetched.status);
      ApplyMoves(sha, db, held, next, ReconcilerWorker, EventFor(next), x, id);
    }
  }

  lemma FinishingMoves(sha: string -> string, db: Db, run: AuthorizeRun, x: Input, id: Uuid)
    requires Inv(sha, db) && RunStored(db, run) && id in db.payments
    ensures MovedBy(Finishing(run), x, db, StepFinishing(db, run, x).0, id)
  {
    hide Inv, Known, ApplyStatus;
    ApplyMoves(sha, db, run.payment, run.lastStatus, Connector(run.lastKey), EventFor(run.lastStatus), x, id);
  }

  lemma ExpiringMoves(sha: string -> string, db: Db, due: seq<Payment>, asOf: int, n: nat, x: Input, id: Uuid)
    requires Inv(sha, db) && (forall p :: p in due ==> Known(db, p)) && id in db.payments
    ensures MovedBy(Expiring(due, asOf, n), x, db, StepExpiring(db, due, asOf, n, x).0, id)
  {
    hide Inv, Known, ApplyStatus;
    if due != [] { ApplyMoves(sha, db, due[0], Expired, SystemExpiry, PaymentExpired, x, id); }
  }

  /** In every reachable state a step moves a payment's status only as the table allows. */
  lemma StepMoves(sha: string -> string, events: seq<Event>, c: nat, x: Input, id: Uuid)
    requires var s := Run(sha, events); c in s.clients && Runnable(s.clients[c]) && id in s.db.payments
    ensures var s := Run(sha, events);
      MovedBy(s.clients[c], x, s.db, Step(sha, s.db, s.clients[c], x).0, id)
  {
    hide Inv, PcInv, Step, MovedBy;
    Reachable(sha, events);
    var s := Run(sha, events);
    assert PcInv(sha, s.db, s.clients[c]);
    MovesFrom(sha, s.db, s.clients[c], x, id);
  }

  lemma MovesFrom(sha: string -> string, db: Db, pc: Pc, x: Input, id: Uuid)
    requires Inv(sha, db) && PcInv(sha, db, pc) && Runnable(pc) && id in db.payments
    ensures MovedBy(pc, x, db, Step(sha, db, pc, x).0, id)
  {
    hide Inv, Known, RunFinished, RunTrying, OutcomeInv, MayMove;
    hide StepLookup, StepFetched, StepHave, StepDeciding, StepFinishing, StepPolling, StepListDue, StepExpiring;
    match pc
    case Fetched(held, goal) => FetchedMoves(sha, db, held, goal, x, id);
    case Have(held, goal) => HaveMoves(sha, db, held, goal, x, id);
    case Finishing(run) => FinishingMoves(sha, db, run, x, id);
    case Polling(held, a) => PollingMoves(sha, db, held, a, x, id);
    case Expiring(due, asOf, n) => ExpiringMoves(sha, db, due, asOf, n, x, id);
    case _ =>
  }

  // ----- When an undisturbed call succeeds -----

  /** No database fault, and fresh outbox ids. */
  ghost predicate Undisturbed(db: Db, env: nat -> Input) {
    forall k :: !env(k).fault && !OutboxIdTaken(db, env(k).eventId)
  }

  /** The database after one committed status change: the row, one audit row and one outbox row, and nothing else. */
  function Written(db: Db, p: Payment, next: PaymentStatus, actor: Actor, event: EventType, x: Input): Db {
    Db(db.payments[p.id := Moved(p, next, x)],
       db.idempotency,
       db.audit + [AuditEvent(p.tenant, p.id, actor, event, ChangeMeta(p.status, next), x.now)],
       db.outbox + [OutboxRecord(x.eventId, p.tenant, p.id, event, next, p.merchant, p.orderId, p.amount, p.currency,
                                 x.now)],
       db.attempts)
  }

  function Moved(p: Payment, next: PaymentStatus, x: Input): Payment {
    p.(status := next, updatedAt := x.now, version := p.version + 1)
  }

  lemma ApplySucceedsIff(db: Db, held: Payment, next: PaymentStatus, actor: Actor, event: EventType, x: Input)
    requires !x.fault && !OutboxIdTaken(db, x.eventId)
    requires held.id in db.payments && db.payments[held.id] == held
    ensures var (db', r) := ApplyStatus(db, held, next, actor, event, x);
      if Legal(held.status, next)
      then r.Ok? && r.value == held.(status := next, updatedAt := x.now, version := held.version + 1)
           && db'.payments == db.payments[held.id := r.value] && db' == Written(db, held, next, actor, event, x)
      else r == Err(Conflict) && db' == db
  {
  }

  ghost predicate Exists(db: Db, tenant: Uuid, id: Uuid) {
    id in db.payments && db.payments[id].id == id && db.payments[id].tenant == tenant
  }

  /** Whatever an operation is for, asking for another tenant's payment finds nothing and changes nothing. */
  lemma OtherTenantFindsNothing(sha: string -> string, db: Db, tenant: Uuid, id: Uuid, goal: Goal, env: nat -> Input)
    requires id in db.payments ==> db.payments[id].tenant != tenant
    ensures RunAlone(sha, db, Fetch(tenant, id, goal), env, 0)
      == (db, Refused(StoreSays(if env(0).fault then Infra else NotFound)))
  {
    Unroll(sha, db, Fetch(tenant, id, goal), env, 0);
  }

  /**
   Cancel succeeds exactly on an existing payment that is Pending, RequiresAction, Authorized or already Cancelled.
   */
  lemma CancelIff(sha: string -> string, db: Db, tenant: Uuid, id: Uuid, actor: string, env: nat -> Input)
    requires Undisturbed(db, env) && Exists(db, tenant, id)
    ensures var (db', o) := RunAlone(sha, db, Fetch(tenant, id, Cancel(actor)), env, 0);
      if db.payments[id].status in {Pending, RequiresAction, Authorized, Cancelled}
      then o == OkPayment(Moved(db.payments[id], Cancelled, env(1)))
           && db' == Written(db, db.payments[id], Cancelled, Merchant(actor), PaymentCancelled, env(1))
      else o == Refused(IllegalTransition) && db' == db
  {
    var p := db.payments[id];
    assert Step(sha, db, Fetch(tenant, id, Cancel(actor)), env(0)) == (db, Fetched(p, Cancel(actor)));
    ApplySucceedsIff(db, p, Cancelled, Merchant(actor), PaymentCancelled, env(1));
    TwoSteps(sha, db, Fetch(tenant, id, Cancel(actor)), env, Fetched(p, Cancel(actor)));
  }

  /** Refund succeeds exactly on an existing payment that is Settled or PartiallyRefunded. */
  lemma RefundIff(sha: string -> string, db: Db, tenant: Uuid, id: Uuid, actor: string, env: nat -> Input)
    requires Undisturbed(db, env) && Exists(db, tenant, id)
    ensures var (db', o) := RunAlone(sha, db, Fetch(tenant, id, Refund(actor)), env, 0);
      if db.payments[id].status in {Settled, PartiallyRefunded}
      then o == OkPayment(Moved(db.payments[id], Refunded, env(1)))
           && db' == Written(db, db.payments[id], Refunded, Merchant(actor), PaymentRefunded, env(1))
      else o == Refused(NotRefundable) && db' == db
  {
    var p := db.payments[id];
    assert Step(sha, db, Fetch(tenant, id, Refund(actor)), env(0)) == (db, Fetched(p, Refund(actor)));
    ApplySucceedsIff(db, p, Refunded, Merchant(actor), PaymentRefunded, env(1));
    TwoSteps(sha, db, Fetch(tenant, id, Refund(actor)), env, Fetched(p, Refund(actor)));
  }

  lemma TwoSteps(sha: string -> string, db: Db, pc: Pc, env: nat -> Input, mid: Pc)
    requires Runnable(pc) && Runnable(mid) && !pc.Done? && !mid.Done? && Step(sha, db, pc, env(0)) == (db, mid)
    requires Step(sha, db, mid, env(1)).1.Done?
    ensures RunAlone(sha, db, pc, env, 0) == (Step(sha, db, mid, env(1)).0, Step(sha, db, mid, env(1)).1.outcome)
  {
    hide Step;
    assert RunAlone(sha, db, pc, env, 0) == RunAlone(sha, db, mid, env, 1);
    assert RunAlone(sha, db, mid, env, 1)
        == RunAlone(sha, Step(sha, db, mid, env(1)).0, Step(sha, db, mid, env(1)).1, env, 2);
  }

  /**
   The last step of an undisturbed authorise call: an answer that Processing can move to is written; any other, such as
   RequiresAction from a manual rail, is refused and leaves the payment in Processing.
   */
  lemma FinishingIff(db: Db, run: AuthorizeRun, x: Input)
    requires !x.fault && !OutboxIdTaken(db, x.eventId)
    requires run.payment.id in db.payments && db.payments[run.payment.id] == run.payment
        && run.payment.status == Processing
    ensures var (db', pc') := StepFinishing(db, run, x);
      if run.lastStatus in {Processing, Authorized, Settled, Failed}
      then pc'.Done? && pc'.outcome.OkAuthorized? && pc'.outcome.payment.status == run.lastStatus
           && db'.payments == db.payments[run.payment.id := pc'.outcome.payment] && db'.attempts == db.attempts
           && pc'.outcome.payment == Moved(run.payment, run.lastStatus, x)
           && db' == Written(db, run.payment, run.lastStatus, Connector(run.lastKey), EventFor(run.lastStatus), x)
      else pc' == Fail(Conflict) && db' == db
  {
    ApplySucceedsIff(db, run.payment, run.lastStatus, Connector(run.lastKey), EventFor(run.lastStatus), x);
  }

  /** The policy ranks a connector for the payment, and the first one answers with a reference not seen before. */
  ghost predicate Connects(attempts: seq<Attempt>, p: Payment, env: nat -> Input) {
    && !env(3).fault && !env(4).fault
    && Ranking(env(3).rules, env(3).fallback, ContextOf(p), env(3).catalogue) != []
    && env(4).answer.Answered?
    && forall b :: b in attempts ==> b.id != env(4).newId && b.providerReference != Some(env(4).answer.reference)
  }

  /** The connector that the policy ranks first. */
  function FirstKey(p: Payment, x: Input): string {
    var ranking := Ranking(x.rules, x.fallback, ContextOf(p), x.catalogue);
    if ranking == [] then "" else ranking[0].key
  }

  /** The attempt that its answer leaves. */
  function FirstAttempt(p: Payment, env: nat -> Input): Attempt
    requires env(4).answer.Answered?
  {
    var answer := env(4).answer;
    Attempt(env(4).newId, p.tenant, p.id, FirstKey(p, env(3)), Some(answer.reference), answer.status, None, env(4).now)
  }

  /** The connector's answer has become the status, with one audit row and one outbox row of that name. */
  predicate WroteAnswer(db: Db, db': Db, o: Outcome, q: Payment, key: string, next: PaymentStatus, event: EventType,
      x: Input) {
    o.OkAuthorized? && o.payment == Moved(q, next, x) && db' == Written(db, q, next, Connector(key), event, x)
  }

  /** What the final write makes of each answer. */
  predicate AnswerWritten(db: Db, db': Db, o: Outcome, q: Payment, key: string, answer: AttemptStatus, x: Input) {
    match answer
    case AAuthorized => WroteAnswer(db, db', o, q, key, Authorized, PaymentAuthorized, x)
    case ASettled => WroteAnswer(db, db', o, q, key, Settled, PaymentSettled, x)
    case AFailed => WroteAnswer(db, db', o, q, key, Failed, PaymentFailed, x)
    case AProcessing | AAmbiguous => WroteAnswer(db, db', o, q, key, Processing, PaymentProcessing, x)
    case ACreated | ARequiresAction | ACancelled | AExpired => o == Refused(StoreSays(Conflict)) && db' == db
  }

  lemma FinishingWrites(db: Db, run: AuthorizeRun, answer: AttemptStatus, x: Input)
    requires !x.fault && !OutboxIdTaken(db, x.eventId) && run.lastStatus == IntoPaymentStatus(answer)
    requires run.payment.id in db.payments && db.payments[run.payment.id] == run.payment
        && run.payment.status == Processing
    ensures var (db', pc') := StepFinishing(db, run, x);
      pc'.Done? && AnswerWritten(db, db', pc'.outcome, run.payment, run.lastKey, answer, x)
  {
    hide StepFinishing, Written, Moved;
    FinishingIff(db, run, x);
  }

  lemma ApprovalRecorded(db: Db, p: Payment, env: nat -> Input) returns (db1: Db, q: Payment)
    requires Undisturbed(db, env) && env(2).eventId != env(5).eventId
    requires p.id in db.payments && db.payments[p.id] == p && p.status in {Pending, RequiresAction}
    ensures StepHave(db, p, Authorize(true), env(2)) == (db1, Deciding(q))
    ensures q == p.(status := Processing, updatedAt := env(2).now, version := p.version + 1)
    ensures db1.payments == db.payments[p.id := q] && db1.attempts == db.attempts
    ensures db1 == Written(db, p, Processing, DemoWallet, PaymentProcessing, env(2))
    ensures !OutboxIdTaken(db1, env(5).eventId)
  {
    ApplySucceedsIff(db, p, Processing, DemoWallet, PaymentProcessing, env(2));
    db1 := ApplyStatus(db, p, Processing, DemoWallet, PaymentProcessing, env(2)).0;
    q := db1.payments[p.id];
  }

  /** An answer without a failure code ends the loop at the first connector. */
  lemma AnswerEndsLoop(db: Db, q: Payment, env: nat -> Input) returns (run0: AuthorizeRun, run: AuthorizeRun, db2: Db)
    requires q.id in db.payments && Connects(db.attempts, q, env)
    ensures StepDeciding(q, env(3)) == Trying(run0) && Runnable(Trying(run0))
    ensures StepTrying(db, run0, env(4)) == (db2, Finishing(run))
    ensures run.payment == q && run.lastStatus == IntoPaymentStatus(env(4).answer.status)
    ensures run.lastKey == FirstKey(q, env(3)) && db2 == db.(attempts := db.attempts + [FirstAttempt(q, env)])
  {
    hide Ranking;
    run0 := StepDeciding(q, env(3)).run;
    var a := NewAttempt(q, run0.keys[0], env(4).answer, env(4).newId, env(4).now);
    assert !AttemptRefused(db, a);
    db2 := db.(attempts := db.attempts + [a]);
    run := StepTrying(db, run0, env(4)).1.run;
  }

  /**
   An undisturbed first authorise call, from the read to the last row: the payment goes to Processing, the attempt of
   the connector ranked first is stored, and its answer is written. Authorized, Settled and Failed become the status,
   Processing and an ambiguous outcome leave it in Processing, and any other answer, RequiresAction of a manual rail for
   one, fails the call with the attempt stored and the payment in Processing.
   */
  lemma FirstAnswerDecides(sha: string -> string, db: Db, tenant: Uuid, id: Uuid, env: nat -> Input)
    requires Exists(db, tenant, id) && db.payments[id].status in {Pending, RequiresAction}
    requires env(1).now < db.payments[id].expiresAt
    requires Undisturbed(db, env) && env(2).eventId != env(5).eventId && Connects(db.attempts, db.payments[id], env)
    ensures var (db', o) := RunAlone(sha, db, Fetch(tenant, id, Authorize(true)), env, 0);
      var p := db.payments[id];
      var db1 := Written(db, p, Processing, DemoWallet, PaymentProcessing, env(2));
      AnswerWritten(db1.(attempts := db.attempts + [FirstAttempt(p, env)]), db', o, Moved(p, Processing, env(2)),
                    FirstKey(p, env(3)), env(4).answer.status, env(5))
  {
    hide RunAlone, Ranking, OutboxIdTaken, Undisturbed, StepFinishing, AnswerWritten;
    var db1, q := CallReachesRouting(sha, db, tenant, id, env);
    assert ContextOf(q) == ContextOf(db.payments[id]);
    assert !env(5).fault by { NoFaults(db, env); }
    RoutedCallEnds(sha, db1, q, env);
  }

  lemma CallReachesRouting(sha: string -> string, db: Db, tenant: Uuid, id: Uuid, env: nat -> Input)
    returns (db1: Db, q: Payment)
    requires Exists(db, tenant, id) && db.payments[id].status in {Pending, RequiresAction}
    requires env(1).now < db.payments[id].expiresAt
    requires Undisturbed(db, env) && env(2).eventId != env(5).eventId
    ensures RunAlone(sha, db, Fetch(tenant, id, Authorize(true)), env, 0) == RunAlone(sha, db1, Deciding(q), env, 3)
    ensures q == db.payments[id].(status := Processing, updatedAt := env(2).now, version := db.payments[id].version + 1)
    ensures db1.payments == db.payments[id := q] && db1.attempts == db.attempts
    ensures db1 == Written(db, db.payments[id], Processing, DemoWallet, PaymentProcessing, env(2))
    ensures !OutboxIdTaken(db1, env(5).eventId)
  {
    hide RunAlone, StepHave, OutboxIdTaken, Undisturbed;
    var p, goal := db.payments[id], Authorize(true);
    assert !env(0).fault by { NoFaults(db, env); }
    Unroll(sha, db, Fetch(tenant, id, goal), env, 0);
    Unroll(sha, db, Fetched(p, goal), env, 1);
    assert StepFetched(db, p, goal, env(1)) == (db, Have(p, goal));
    Unroll(sha, db, Have(p, goal), env, 2);
    db1, q := ApprovalRecorded(db, p, env);
  }

  /** The same from the routing on, for a payment found in Processing. */
  lemma RoutedCallEnds(sha: string -> string, db: Db, q: Payment, env: nat -> Input)
    requires q.id in db.payments && db.payments[q.id] == q && q.status == Processing
    requires !env(5).fault && !OutboxIdTaken(db, env(5).eventId) && Connects(db.attempts, q, env)
    ensures var (db', o) := RunAlone(sha, db, Deciding(q), env, 3);
      AnswerWritten(db.(attempts := db.attempts + [FirstAttempt(q, env)]), db', o, q, FirstKey(q, env(3)),
                    env(4).answer.status, env(5))
  {
    hide RunAlone, StepDeciding, StepTrying, StepFinishing, OutboxIdTaken, IntoPaymentStatus, AnswerWritten;
    hide Ranking, Written, Moved;
    Unroll(sha, db, Deciding(q), env, 3);
    var run0, run, db2 := AnswerEndsLoop(db, q, env);
    Unroll(sha, db, Trying(run0), env, 4);
    Unroll(sha, db2, Finishing(run), env, 5);
    SameOutbox(db, db2, env(5).eventId);
    FinishingWrites(db2, run, env(4).answer.status, env(5));
  }

  lemma NoFaults(db: Db, env: nat -> Input)
    requires Undisturbed(db, env)
    ensures forall k :: !env(k).fault
  {
  }

  lemma SameOutbox(db: Db, db': Db, id: Uuid)
    requires db'.outbox == db.outbox
    ensures OutboxIdTaken(db', id) <==> OutboxIdTaken(db, id)
  {
  }

  /** A read expires a payment exactly when it is due and still Pending or RequiresAction. */
  lemma ReadExpiresIff(sha: string -> string, db: Db, tenant: Uuid, id: Uuid, env: nat -> Input)
    requires Undisturbed(db, env) && Exists(db, tenant, id)
    ensures var (db', o) := RunAlone(sha, db, Fetch(tenant, id, Show), env, 0);
      if env(1).now >= db.payments[id].expiresAt && db.payments[id].status in {Pending, RequiresAction}
      then o == OkPayment(Moved(db.payments[id], Expired, env(1)))
           && db' == Written(db, db.payments[id], Expired, SystemExpiry, PaymentExpired, env(1))
      else o == OkPayment(db.payments[id]) && db' == db
  {
    var p, start := db.payments[id], Fetch(tenant, id, Show);
    ExpiryOnlyBeforeProcessing(p, env(1).now);
    ApplySucceedsIff(db, p, Expired, SystemExpiry, PaymentExpired, env(1));
    assert Step(sha, db, start, env(0)) == (db, Fetched(p, Show));
    var (db1, pc1) := StepFetched(db, p, Show, env(1));
    assert pc1.Have? && Step(sha, db1, pc1, env(2)) == (db1, Done(OkPayment(pc1.held)));
    ThreeSteps(sha, db, start, env, Fetched(p, Show));
  }

  lemma ThreeSteps(sha: string -> string, db: Db, pc: Pc, env: nat -> Input, mid: Pc)
    requires Runnable(pc) && Runnable(mid) && !pc.Done? && !mid.Done? && Step(sha, db, pc, env(0)) == (db, mid)
    requires var (db1, pc1) := Step(sha, db, mid, env(1));
      !pc1.Done? && Step(sha, db1, pc1, env(2)).1.Done?
    ensures var (db1, pc1) := Step(sha, db, mid, env(1));
      RunAlone(sha, db, pc, env, 0) == (Step(sha, db1, pc1, env(2)).0, Step(sha, db1, pc1, env(2)).1.outcome)
  {
    hide Step;
    var (db1, pc1) := Step(sha, db, mid, env(1));
    assert RunAlone(sha, db, pc, env, 0) == RunAlone(sha, db, mid, env, 1);
    assert RunAlone(sha, db, mid, env, 1) == RunAlone(sha, db1, pc1, env, 2);
    assert RunAlone(sha, db1, pc1, env, 2)
      == RunAlone(sha, Step(sha, db1, pc1, env(2)).0, Step(sha, db1, pc1, env(2)).1, env, 3);
  }
}
