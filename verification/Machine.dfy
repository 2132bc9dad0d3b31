/**
 The service operations as small-step programs. Each step is some local
 computation and at most one store call, so the steps of different clients can
 be interleaved freely. What a step cannot know (the clock, connector answers,
 fresh ids, the policy in force, a failing database) comes from its `Input`.
 */
module Machine {
  import opened Wrappers
  import opened Ids
  import opened Status
  import opened Rows
  import opened Store
  import opened Fingerprint
  import opened Routing

  // ----- Connectors -----

  datatype ConnectorError = Unavailable | Timeout | Declined | Ambiguous | NotSupported | Message

  function FailureCode(e: ConnectorError): string {
    match e
    case Unavailable => "CONNECTOR_UNAVAILABLE"
    case Timeout => "TIMEOUT"
    case Declined => "PAYER_DECLINED"
    case Ambiguous => "AMBIGUOUS"
    case NotSupported => "NOT_SUPPORTED"
    case Message => "CONNECTOR_ERROR"
  }

  /** What the registry, the catalogue and the connector say to one authorise attempt. */
  datatype AttemptAnswer =
    | NotRegistered
    | NoCatalogRow
    | Answered(reference: string, status: AttemptStatus)
    | Errored(error: ConnectorError)

  datatype FetchAnswer = NoConnector | FetchError | Fetches(status: AttemptStatus)

  datatype Input = Input(
    now: int, fault: bool, eventId: Uuid, newId: Uuid,
    rules: seq<RoutingRule>, fallback: FallbackSpec, catalogue: seq<ConnectorSnapshot>,
    answer: AttemptAnswer, fetched: FetchAnswer, resolverOk: bool, visit: seq<Uuid>)

  // ----- Programs -----

  datatype Goal =
    | Show
    | Authorize(approve: bool)
    | Cancel(actor: string)
    | Refund(actor: string)
    | Reconcile
    | Resolve(approves: bool, admin: string)

  /** One authorise call after routing. `made` lists the attempts it has stored. */
  datatype AuthorizeRun = AuthorizeRun(
    payment: Payment, decision: RoutingDecision, keys: seq<string>,
    tried: seq<string>, made: seq<Attempt>, lastStatus: PaymentStatus, lastKey: string)

  datatype Refusal = StoreSays(error: StoreError) | IllegalTransition | NotRefundable | NoRoute | ConnectorSays

  datatype Outcome =
    | OkPayment(payment: Payment)
    | OkReplay(payment: Payment)
    | OkAuthorized(payment: Payment, run: AuthorizeRun)
    | OkCreated(command: CreateCommand, payment: Payment, replayed: bool)
    | OkCount(n: nat)
    | Refused(why: Refusal)

  datatype Pc =
    | Lookup(command: CreateCommand)
    | Inserting(command: CreateCommand, draft: Payment)
    | Replaying(command: CreateCommand, existing: Uuid)
    | FindAttempt(tenant: Uuid, attemptId: Uuid, approves: bool, admin: string)
    | Fetch(tenant: Uuid, id: Uuid, goal: Goal)
    | Fetched(held: Payment, goal: Goal)
    | Have(held: Payment, goal: Goal)
    | Deciding(held: Payment)
    | Trying(run: AuthorizeRun)
    | Finishing(run: AuthorizeRun)
    | Polling(held: Payment, polled: Attempt)
    | ListDue(limit: nat)
    | Expiring(due: seq<Payment>, asOf: int, n: nat)
    | Done(outcome: Outcome)

  /** The programs a client can start. */
  predicate IsStart(pc: Pc) {
    match pc
    case Lookup(c) => WellFormed(c)
    case Fetch(_, _, _) => true
    case FindAttempt(_, _, _, _) => true
    case ListDue(_) => true
    case _ => false
  }

  function Fail(e: StoreError): Pc { Done(Refused(StoreSays(e))) }

  /** A program position that the previous steps can have led to. */
  predicate Runnable(pc: Pc) {
    match pc
    case Trying(run) => |run.tried| < |run.keys| <= 8
    case _ => true
  }

  /** A bound on the steps a program still takes. */
  function Left(pc: Pc): nat {
    match pc
    case Done(_) => 0
    case Inserting(_, _) | Replaying(_, _) | Finishing(_) | Polling(_, _) => 1
    case Lookup(_) => 2
    case Trying(run) => if |run.tried| <= |run.keys| then 2 + |run.keys| - |run.tried| else 2
    case Deciding(_) => 11
    case Have(_, _) => 12
    case Fetched(_, _) => 13
    case Fetch(_, _, _) => 14
    case FindAttempt(_, _, _, _) => 15
    case Expiring(due, _, _) => 1 + |due|
    case ListDue(limit) => 2 + limit
  }

  // ----- Writing a status -----

  /** `apply_status`: the expected version and the audit "from" both come from the caller's snapshot. */
  function ApplyStatus(db: Db, held: Payment, next: PaymentStatus, actor: Actor, event: EventType, x: Input)
    : (Db, Result<Payment, StoreError>)
  {
    if x.fault then (db, Err(Infra))
    else
      TransitionRow(db, TransitionCommand(held.tenant, held.id, Some(held.version), next), x.now,
        AuditEvent(held.tenant, held.id, actor, event, ChangeMeta(held.status, next), x.now),
        PaymentOutbox(held, event, next, x.eventId, x.now))
  }

  /** Apply a status and finish with the updated payment. */
  function ApplyAndFinish(db: Db, held: Payment, next: PaymentStatus, actor: Actor, event: EventType, x: Input)
    : (r: (Db, Pc))
    ensures r.1.Done?
  {
    var (db', r) := ApplyStatus(db, held, next, actor, event, x);
    (db', match r case Ok(p) => Done(OkPayment(p)) case Err(e) => Fail(e))
  }

  // ----- Creation -----

  function NewPayment(c: CreateCommand, id: Uuid, now: int): Payment {
    Payment(id, c.tenant, c.merchant, c.orderId, c.amount, c.currency, Pending,
      if c.methods == [] then [AccountToAccount] else c.methods,
      now + (if c.expiresInSeconds < 30 then 30 else c.expiresInSeconds) * SECOND,
      c.idempotencyKey, 1, now, now)
  }

  function CreationAudit(p: Payment, now: int): AuditEvent {
    AuditEvent(p.tenant, p.id, Merchant(AsPrefixed(MERCHANT, p.merchant)), PaymentCreated,
      CreatedMeta(p.orderId, p.amount, p.currency), now)
  }

  function StepLookup(sha: string -> string, db: Db, c: CreateCommand, x: Input): (r: Pc)
    ensures Runnable(r) && Left(r) < 2
  {
    if x.fault then Fail(Infra)
    else match FindKey(db.idempotency, c.tenant, c.idempotencyKey)
      case Some(row) =>
        if row.fingerprint != RequestFingerprint(sha, c) then Fail(IdempotencyMismatch)
        else Replaying(c, row.payment)
      case None => Inserting(c, NewPayment(c, x.newId, x.now))
  }

  function StepInsert(sha: string -> string, db: Db, c: CreateCommand, p: Payment, x: Input): (r: (Db, Pc))
    ensures Runnable(r.1) && Left(r.1) < 1
  {
    if x.fault then (db, Fail(Infra))
    else
      var (db', r) := InsertPayment(db, p,
        IdempotencyRow(c.tenant, c.idempotencyKey, RequestFingerprint(sha, c), p.id),
        CreationAudit(p, p.createdAt),
        PaymentOutbox(p, PaymentCreated, p.status, x.eventId, p.createdAt));
      (db', match r case Ok(q) => Done(OkCreated(c, q, false)) case Err(e) => Fail(e))
  }

  // ----- After a payment row was read -----

  /** `get_payment` expires a due payment; cancel and refund act on the row as read. */
  function StepFetched(db: Db, held: Payment, goal: Goal, x: Input): (r: (Db, Pc))
    ensures Runnable(r.1) && Left(r.1) < 13
  {
    match goal
    case Cancel(actor) =>
      if !Legal(held.status, Cancelled) then (db, Done(Refused(IllegalTransition)))
      else ApplyAndFinish(db, held, Cancelled, Merchant(actor), PaymentCancelled, x)
    case Refund(actor) =>
      if held.status != Settled && held.status != PartiallyRefunded then (db, Done(Refused(NotRefundable)))
      else ApplyAndFinish(db, held, Refunded, Merchant(actor), PaymentRefunded, x)
    case _ =>
      match ExpiryTarget(held, x.now)
      case None => (db, Have(held, goal))
      case Some(next) =>
        var (db', r) := ApplyStatus(db, held, next, SystemExpiry, PaymentExpired, x);
        (db', match r case Ok(p) => Have(p, goal) case Err(e) => Fail(e))
  }

  predicate TerminalForAuthorize(s: PaymentStatus) {
    s in {Settled, Failed, Cancelled, Expired, Refunded}
  }

  function StepHave(db: Db, held: Payment, goal: Goal, x: Input): (r: (Db, Pc))
    ensures Runnable(r.1) && Left(r.1) < 12
  {
    match goal
    case Authorize(approve) =>
      if TerminalForAuthorize(held.status) then (db, Done(OkReplay(held)))
      else if !approve then ApplyAndFinish(db, held, Failed, DemoWallet, PaymentFailed, x)
      else if held.status == Processing then (db, Deciding(held))
      else
        var (db', r) := ApplyStatus(db, held, Processing, DemoWallet, PaymentProcessing, x);
        (db', match r case Ok(p) => Deciding(p) case Err(e) => Fail(e))
    case Reconcile =>
      if held.status != Processing then (db, Done(OkPayment(held)))
      else if x.fault then (db, Fail(Infra))
      else (db, match ReconcilableAttempt(ListAttempts(db, held.tenant, held.id))
        case None => Done(Refused(ConnectorSays))
        case Some(a) => if a.providerReference.None? then Done(Refused(ConnectorSays)) else Polling(held, a))
    case Resolve(approves, admin) =>
      if approves then ApplyAndFinish(db, held, Settled, Admin(admin), PaymentSettled, x)
      else ApplyAndFinish(db, held, Failed, Admin(admin), PaymentFailed, x)
    case _ => (db, Done(OkPayment(held)))
  }

  function StepFindAttempt(db: Db, tenant: Uuid, attempt: Uuid, approves: bool, admin: string, x: Input): (r: Pc)
    ensures Runnable(r) && Left(r) < 15
  {
    if x.fault then Fail(Infra)
    else match GetAttempt(db.attempts, tenant, attempt)
      case None => Fail(NotFound)
      case Some(a) =>
        if a.providerReference.None? || !x.resolverOk then Done(Refused(ConnectorSays))
        else Fetch(a.tenant, a.payment, Resolve(approves, admin))
  }

  // ----- Authorise: routing and bounded fallback -----

  function ContextOf(p: Payment): RoutingContext {
    RoutingContext(p.currency, p.amount, p.methods)
  }

  function DecisionFor(ranking: seq<Entry>, fallback: FallbackSpec): RoutingDecision
    requires ranking != []
  {
    RoutingDecision(ranking[0].key, ranking[0].priority, ranking[0].why, Keys(ranking), fallback)
  }

  /** `candidates.take(max_attempts)` */
  function KeysToTry(d: RoutingDecision): (keys: seq<string>)
    ensures 1 <= |keys| <= 8
  {
    var candidates := if d.rankedKeys == [] then [d.selected] else d.rankedKeys;
    if |candidates| <= AttemptLimit(d.fallback) then candidates else candidates[..AttemptLimit(d.fallback)]
  }

  function StepDeciding(held: Payment, x: Input): (r: Pc)
    ensures Runnable(r) && Left(r) < 11
  {
    var ranking := Ranking(x.rules, x.fallback, ContextOf(held), x.catalogue);
    if x.fault then Fail(Infra)
    else if ranking == [] then Done(Refused(NoRoute))
    else
      var d := DecisionFor(ranking, x.fallback);
      Trying(AuthorizeRun(held, d, KeysToTry(d), [], [], Processing, d.selected))
  }

  function NewAttempt(p: Payment, key: string, answer: AttemptAnswer, id: Uuid, now: int): Attempt
    requires answer.Answered? || answer.Errored?
  {
    match answer
    case Answered(reference, status) => Attempt(id, p.tenant, p.id, key, Some(reference), status, None, now)
    case Errored(Timeout) =>
      Attempt(id, p.tenant, p.id, key, Some("timeout_" + AsPrefixed(PAYMENT, p.id)), AAmbiguous,
          Some(FailureCode(Timeout)), now)
    case Errored(e) => Attempt(id, p.tenant, p.id, key, None, AFailed, Some(FailureCode(e)), now)
  }

  /** Continue with the next key or stop, after an answer with this failure code (none on success). */
  function ContinueOrStop(run: AuthorizeRun, code: Option<string>): (pc: Pc)
    requires |run.tried| <= |run.keys| <= 8
    ensures Runnable(pc) && Left(pc) <= Left(Trying(run))
  {
    if code.Some? && ShouldTryNext(run.decision.fallback, code.value, |run.tried|, |run.keys| - |run.tried|)
    then Trying(run) else Finishing(run)
  }

  function StepTrying(db: Db, run: AuthorizeRun, x: Input): (r: (Db, Pc))
    requires Runnable(Trying(run))
    ensures Runnable(r.1) && Left(r.1) < Left(Trying(run))
  {
    var key := run.keys[|run.tried|];
    var run := run.(tried := run.tried + [key], lastKey := key);
    match x.answer
    case NotRegistered =>
      (db, ContinueOrStop(run.(lastStatus := Failed), Some("CONNECTOR_UNAVAILABLE")))
    case NoCatalogRow => (db, Fail(NotFound))
    case _ =>
      var a := NewAttempt(run.payment, key, x.answer, x.newId, x.now);
      if x.fault then (db, Fail(Infra))
      else
        var (db', r) := InsertAttempt(db, a);
        (db', if r.Err? then Fail(r.error)
              else
                ContinueOrStop(run.(made := run.made + [a], lastStatus := IntoPaymentStatus(a.status)), a.failureCode))
  }

  function StepFinishing(db: Db, run: AuthorizeRun, x: Input): (r: (Db, Pc))
    ensures Runnable(r.1) && Left(r.1) < 1
  {
    var (db', r) := ApplyStatus(db, run.payment, run.lastStatus, Connector(run.lastKey), EventFor(run.lastStatus), x);
    (db', match r case Ok(p) => Done(OkAuthorized(p, run)) case Err(e) => Fail(e))
  }

  // ----- Reconcile and expiry -----

  function StepPolling(db: Db, held: Payment, x: Input): (r: (Db, Pc))
    ensures Runnable(r.1) && Left(r.1) < 1
  {
    match x.fetched
    case NoConnector | FetchError => (db, Done(Refused(ConnectorSays)))
    case Fetches(status) =>
      var next := IntoPaymentStatus(status);
      if next == held.status then (db, Done(OkPayment(held)))
      else ApplyAndFinish(db, held, next, ReconcilerWorker, EventFor(next), x)
  }

  function StepListDue(db: Db, limit: nat, x: Input): (r: Pc)
    ensures Runnable(r) && Left(r) < 2 + limit
  {
    if x.fault then Fail(Infra)
    else
      var rows := ListExpirable(db, x.now, x.visit);
      Expiring(if |rows| <= limit then rows else rows[..limit], x.now, 0)
  }

  function StepExpiring(db: Db, due: seq<Payment>, asOf: int, n: nat, x: Input): (r: (Db, Pc))
    ensures Runnable(r.1) && Left(r.1) < 1 + |due|
  {
    if due == [] then (db, Done(OkCount(n)))
    else match ExpiryTarget(due[0], asOf)
      case None => (db, Expiring(due[1..], asOf, n))
      case Some(next) =>
        var (db', r) := ApplyStatus(db, due[0], next, SystemExpiry, PaymentExpired, x);
        (db', Expiring(due[1..], asOf, if r.Ok? then n + 1 else n))
  }

  // ----- One step -----

  function Step(sha: string -> string, db: Db, pc: Pc, x: Input): (r: (Db, Pc))
    requires Runnable(pc)
    ensures Runnable(r.1)
    ensures !pc.Done? ==> Left(r.1) < Left(pc)
  {
    hide StepLookup, StepInsert, StepFetched, StepHave, StepDeciding, StepTrying, StepFinishing, StepPolling;
    match pc
    case Lookup(c) => (db, StepLookup(sha, db, c, x))
    case Inserting(c, p) => StepInsert(sha, db, c, p, x)
    case Replaying(c, id) =>
      (db, if x.fault then Fail(Infra)
           else match GetById(db, c.tenant, id) case Ok(p) => Done(OkCreated(c, p, true)) case Err(e) => Fail(e))
    case FindAttempt(tenant, attempt, approves, admin) => (db, StepFindAttempt(db, tenant, attempt, approves, admin, x))
    case Fetch(tenant, id, goal) =>
      (db, if x.fault then Fail(Infra)
           else match GetById(db, tenant, id) case Ok(p) => Fetched(p, goal) case Err(e) => Fail(e))
    case Fetched(held, goal) => StepFetched(db, held, goal, x)
    case Have(held, goal) => StepHave(db, held, goal, x)
    case Deciding(held) => (db, StepDeciding(held, x))
    case Trying(run) => StepTrying(db, run, x)
    case Finishing(run) => StepFinishing(db, run, x)
    case Polling(held, _) => StepPolling(db, held, x)
    case ListDue(limit) => (db, StepListDue(db, limit, x))
    case Expiring(due, asOf, n) => StepExpiring(db, due, asOf, n, x)
    case Done(_) => (db, pc)
  }

  /** A program run to its end with nobody else on the store. */
  function RunAlone(sha: string -> string, db: Db, pc: Pc, env: nat -> Input, k: nat): (Db, Outcome)
    requires Runnable(pc)
    decreases Left(pc)
  {
    match pc
    case Done(o) => (db, o)
    case _ =>
      var (db', pc') := Step(sha, db, pc, env(k));
      RunAlone(sha, db', pc', env, k + 1)
  }
}
