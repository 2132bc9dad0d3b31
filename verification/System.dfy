/**
 Any number of clients running any service operations against one store, their
 steps interleaved in any order. The invariant below holds in every state such
 a system reaches, whatever the connectors answer and wherever clients stop.
 */
module System {
  import opened Wrappers
  import opened Ids
  import opened Status
  import opened Rows
  import opened Store
  import opened Fingerprint
  import opened Routing
  import opened Machine
  import opened Ledger

  datatype State = State(db: Db, clients: map<nat, Pc>)

  datatype Event = Start(client: nat, program: Pc) | Advance(client: nat, input: Input)

  const INITIAL := State(Db(map[], [], [], [], []), map[])

  /** A client that is idle or done may start a program; a client in a program may take its next step. */
  function Next(sha: string -> string, s: State, e: Event): State {
    match e
    case Start(c, program) =>
      if IsStart(program) && (c in s.clients ==> s.clients[c].Done?) then s.(clients := s.clients[c := program]) else s
    case Advance(c, x) =>
      if c in s.clients && Runnable(s.clients[c]) then
        var (db', pc') := Step(sha, s.db, s.clients[c], x);
        State(db', s.clients[c := pc'])
      else s
  }

  function Run(sha: string -> string, events: seq<Event>): State {
    if events == [] then INITIAL
    else Next(sha, Run(sha, events[..|events| - 1]), events[|events| - 1])
  }

  // ----- What a program position knows -----

  ghost predicate Requested(sha: string -> string, c: CreateCommand, p: Payment) {
    && p.tenant == c.tenant
    && p.idempotencyKey == c.idempotencyKey
    && |p.currency| == 3
    && PaymentFingerprint(sha, p) == RequestFingerprint(sha, c)
  }

  /** A failure after which the fallback may go on. */
  predicate AllowedFailure(f: FallbackSpec, a: Attempt) {
    a.failureCode.Some? && AllowsFailure(f, a.failureCode.value)
  }

  /** The decision is that of some policy for the payment's own currency, amount and methods. */
  ghost predicate Routed(p: Payment, d: RoutingDecision) {
    exists rules, catalogue :: RoutedBy(p, d, rules, catalogue)
  }

  predicate RoutedBy(p: Payment, d: RoutingDecision, rules: seq<RoutingRule>, catalogue: seq<ConnectorSnapshot>) {
    var ranking := Ranking(rules, d.fallback, ContextOf(p), catalogue);
    ranking != [] && d == DecisionFor(ranking, d.fallback)
  }

  /** The keys tried are a prefix of the bounded ranking, and the attempts belong to the payment. */
  ghost predicate RunShape(run: AuthorizeRun) {
    && Routed(run.payment, run.decision)
    && run.decision.rankedKeys != []
    && run.keys == KeysToTry(run.decision)
    && run.tried <= run.keys
    && |run.made| <= |run.tried|
    && forall a :: a in run.made ==> AttemptFits(run, a)
  }

  /** An attempt of the run's payment; an ambiguous one was answered as such or timed out. */
  predicate AttemptFits(run: AuthorizeRun, a: Attempt) {
    && a.payment == run.payment.id && a.tenant == run.payment.tenant
    && (a.status == AAmbiguous ==> a.failureCode in {None, Some(FailureCode(Timeout))})
  }

  ghost predicate RunTrying(run: AuthorizeRun) {
    && RunShape(run)
    && (run.tried != [] ==> run.decision.fallback.enabled)
    && forall a :: a in run.made ==> AllowedFailure(run.decision.fallback, a)
  }

  /** The status to write is that of the last key: Failed when no connector is registered for it, else its attempt's. */
  predicate LastAnswer(run: AuthorizeRun) {
    || (run.lastStatus == Failed && |run.made| < |run.tried|
        && forall a :: a in run.made ==> AllowedFailure(run.decision.fallback, a))
    || (run.made != []
        && run.made[|run.made| - 1].connectorKey == run.lastKey
        && run.lastStatus == IntoPaymentStatus(run.made[|run.made| - 1].status))
  }

  ghost predicate RunFinished(run: AuthorizeRun) {
    && RunShape(run)
    && run.tried != [] && run.lastKey == run.tried[|run.tried| - 1]
    && (|run.tried| > 1 ==> run.decision.fallback.enabled)
    && (forall i :: 0 <= i < |run.made| - 1 ==> AllowedFailure(run.decision.fallback, run.made[i]))
    && LastAnswer(run)
  }

  ghost predicate RunStored(db: Db, run: AuthorizeRun) {
    && Known(db, run.payment) && run.payment.status == Processing
    && forall a :: a in run.made ==> a in db.attempts
  }

  ghost predicate OutcomeInv(sha: string -> string, db: Db, o: Outcome) {
    match o
    case OkPayment(p) => Known(db, p)
    case OkReplay(p) => Known(db, p)
    case OkAuthorized(p, run) =>
      Known(db, p) && p.id == run.payment.id && p.status == run.lastStatus && RunFinished(run) && RunStored(db, run)
    case OkCreated(c, p, replayed) =>
      Known(db, p) && WellFormed(c) && Requested(sha, c, p) && (!replayed ==> p == NewPayment(c, p.id, p.createdAt))
    case _ => true
  }

  ghost predicate PcInv(sha: string -> string, db: Db, pc: Pc) {
    match pc
    case Lookup(c) => WellFormed(c)
    case Inserting(c, p) => WellFormed(c) && p == NewPayment(c, p.id, p.createdAt)
    case Replaying(c, id) => WellFormed(c) && id in db.payments && Requested(sha, c, db.payments[id])
    case Fetched(p, _) => Known(db, p)
    case Have(p, _) => Known(db, p)
    case Deciding(p) => Known(db, p) && p.status == Processing
    case Trying(run) => RunStored(db, run) && RunTrying(run) && Runnable(pc)
    case Finishing(run) => RunStored(db, run) && RunFinished(run)
    case Polling(p, _) => Known(db, p) && p.status == Processing
    case Expiring(due, _, _) => forall p :: p in due ==> Known(db, p)
    case Done(o) => OutcomeInv(sha, db, o)
    case _ => true
  }

  ghost predicate SystemInv(sha: string -> string, s: State) {
    Inv(sha, s.db) && forall c :: c in s.clients ==> PcInv(sha, s.db, s.clients[c])
  }

  lemma OutcomeStays(sha: string -> string, db: Db, db': Db, o: Outcome)
    requires OutcomeInv(sha, db, o) && Extends(db, db')
    ensures OutcomeInv(sha, db', o)
  {
    hide Extends, Known, RunFinished;
    match o
    case OkPayment(p) => KnownStays(db, db', p);
    case OkReplay(p) => KnownStays(db, db', p);
    case OkAuthorized(p, run) =>
      KnownStays(db, db', p);
      RunStoredStays(db, db', run);
    case OkCreated(_, p, _) => KnownStays(db, db', p);
    case _ =>
  }

  /** What one client knows stays true while others write. */
  lemma PcInvStays(sha: string -> string, db: Db, db': Db, pc: Pc)
    requires PcInv(sha, db, pc) && Extends(db, db')
    ensures PcInv(sha, db', pc)
  {
    hide Known, RunFinished, RunTrying, OutcomeInv;
    match pc
    case Replaying(c, id) => assert SamePayment(db, db', id);
    case Fetched(p, _) => KnownStays(db, db', p);
    case Have(p, _) => KnownStays(db, db', p);
    case Deciding(p) => KnownStays(db, db', p);
    case Trying(run) => RunStoredStays(db, db', run);
    case Finishing(run) => RunStoredStays(db, db', run);
    case Polling(p, _) => KnownStays(db, db', p);
    case Expiring(due, _, _) => forall p | p in due ensures Known(db', p) { KnownStays(db, db', p); }
    case Done(o) => OutcomeStays(sha, db, db', o);
    case _ =>
  }

  lemma RunStoredStays(db: Db, db': Db, run: AuthorizeRun)
    requires RunStored(db, run) && Extends(db, db')
    ensures RunStored(db', run)
  {
    KnownStays(db, db', run.payment);
  }

  lemma ExtendsItself(db: Db)
    ensures Extends(db, db)
  {
  }

  // ----- One step -----

  /** A status change asked for with any snapshot ever handed out: committed and consistent, or nothing. */
  lemma ApplyKeeps(sha: string -> string, db: Db, held: Payment, next: PaymentStatus, actor: Actor,
        event: EventType, x: Input)
    requires Inv(sha, db) && Known(db, held) && event == EventFor(next)
    requires Legal(held.status, next) ==> Visited(next) && ActorMay(actor, next)
    ensures var (db', r) := ApplyStatus(db, held, next, actor, event, x);
      && Inv(sha, db') && Extends(db, db')
      && (r.Ok? ==> Known(db', r.value) && r.value.id == held.id && r.value.status == next)
      && (r.Err? ==> db' == db)
  {
    hide LedgerInv, AttemptsInv, IdempotencyInv, OutboxInv, Extends;
    var (db', r) := ApplyStatus(db, held, next, actor, event, x);
    ExtendsItself(db);
    if r.Ok? {
      CurrentSnapshot(db, held);
      var a := AuditEvent(held.tenant, held.id, actor, event, ChangeMeta(held.status, next), x.now);
      var o := PaymentOutbox(held, event, next, x.eventId, x.now);
      TransitionKeepsInv(sha, db, db', held, a, o, r.value);
    }
  }

  lemma FinishKeeps(sha: string -> string, db: Db, held: Payment, next: PaymentStatus, actor: Actor,
        event: EventType, x: Input)
    requires Inv(sha, db) && Known(db, held) && event == EventFor(next)
    requires Legal(held.status, next) ==> Visited(next) && ActorMay(actor, next)
    ensures var (db', pc') := ApplyAndFinish(db, held, next, actor, event, x);
      Inv(sha, db') && Extends(db, db') && PcInv(sha, db', pc')
  {
    hide Inv, Extends, Known;
    ApplyKeeps(sha, db, held, next, actor, event, x);
  }

  lemma InsertKeeps(sha: string -> string, db: Db, c: CreateCommand, p: Payment, x: Input)
    requires Inv(sha, db) && WellFormed(c) && p == NewPayment(c, p.id, p.createdAt)
    ensures var (db', pc') := StepInsert(sha, db, c, p, x);
      Inv(sha, db') && Extends(db, db') && PcInv(sha, db', pc')
  {
    var (db', pc') := StepInsert(sha, db, c, p, x);
    ExtendsItself(db);
    var row := IdempotencyRow(c.tenant, c.idempotencyKey, RequestFingerprint(sha, c), p.id);
    var a := CreationAudit(p, p.createdAt);
    var o := PaymentOutbox(p, PaymentCreated, p.status, x.eventId, p.createdAt);
    if !x.fault && InsertPayment(db, p, row, a, o).1.Ok? {
      CreationKeepsInv(sha, db, db', p, row, a, o);
    }
  }

  lemma LookupKeeps(sha: string -> string, db: Db, c: CreateCommand, x: Input)
    requires Inv(sha, db) && WellFormed(c)
    ensures PcInv(sha, db, StepLookup(sha, db, c, x))
  {
    var found := FindKey(db.idempotency, c.tenant, c.idempotencyKey);
    if found.Some? {
      assert RowMatches(sha, db, found.value);
      assert PaymentOk(db, found.value.payment);
    }
  }

  lemma AttemptKeeps(sha: string -> string, db: Db, a: Attempt)
    requires Inv(sha, db) && a.payment in db.payments && a.tenant == db.payments[a.payment].tenant
    requires Reconcilable(a) ==> a.providerReference.Some?
    requires ReachedProcessing(AuditTrail(db.audit, a.payment))
    ensures var (db', r) := InsertAttempt(db, a);
      Inv(sha, db') && Extends(db, db') && (r.Ok? ==> a in db'.attempts)
  {
    ExtendsItself(db);
    if InsertAttempt(db, a).1.Ok? { AttemptKeepsInv(sha, db, a); }
  }

  lemma ProcessingReached(db: Db, p: Payment)
    requires Known(db, p) && p.status == Processing
    ensures p.id in db.payments && p.tenant == db.payments[p.id].tenant
    ensures ReachedProcessing(AuditTrail(db.audit, p.id))
  {
  }

  lemma NewAttemptFacts(p: Payment, key: string, answer: AttemptAnswer, id: Uuid, now: int)
    requires answer.Answered? || answer.Errored?
    ensures var a := NewAttempt(p, key, answer, id, now);
      && a.payment == p.id && a.tenant == p.tenant && a.connectorKey == key
      && (Reconcilable(a) ==> a.providerReference.Some?)
      && (a.failureCode.None? <==> answer.Answered?)
      && (a.status == AAmbiguous ==> a.failureCode in {None, Some(FailureCode(Timeout))})
  {
  }

  /** After an answer: either the fallback may go on, or the run is finished. */
  lemma ContinueKeeps(db: Db, run: AuthorizeRun, code: Option<string>)
    requires RunStored(db, run) && RunShape(run) && run.tried != [] && run.lastKey == run.tried[|run.tried| - 1]
    requires |run.tried| > 1 ==> run.decision.fallback.enabled
    requires forall i :: 0 <= i < |run.made| - 1 ==> AllowedFailure(run.decision.fallback, run.made[i])
    requires LastAnswer(run)
    requires code.Some? && AllowsFailure(run.decision.fallback, code.value) ==>
      forall a :: a in run.made ==> AllowedFailure(run.decision.fallback, a)
    ensures var pc := ContinueOrStop(run, code);
      (pc.Trying? ==> pc.run == run && RunTrying(run)) && (pc.Finishing? ==> pc.run == run && RunFinished(run))
      && (pc.Trying? || pc.Finishing?)
  {
    hide Routed;
  }

  /** The run after it has stored the attempt for its next key. */
  function WithAttempt(run: AuthorizeRun, a: Attempt): AuthorizeRun
    requires |run.tried| < |run.keys|
  {
    var key := run.keys[|run.tried|];
    run.(tried := run.tried + [key], lastKey := key, made := run.made + [a], lastStatus := IntoPaymentStatus(a.status))
  }

  lemma WithAttemptKeeps(db: Db, db': Db, run: AuthorizeRun, a: Attempt)
    requires RunStored(db, run) && RunTrying(run) && Runnable(Trying(run)) && Extends(db, db')
    requires a in db'.attempts && AttemptFits(run, a)
    requires a.connectorKey == run.keys[|run.tried|]
    ensures var pc := ContinueOrStop(WithAttempt(run, a), a.failureCode);
      && (pc.Trying? ==> RunStored(db', pc.run) && RunTrying(pc.run))
      && (pc.Finishing? ==> RunStored(db', pc.run) && RunFinished(pc.run))
      && (pc.Trying? || pc.Finishing?)
  {
    hide Extends, Known, Routed, ContinueOrStop;
    RunStoredStays(db, db', run);
    var run2 := WithAttempt(run, a);
    assert forall i :: 0 <= i < |run2.made| - 1 ==> run2.made[i] in run.made;
    assert run2.tried <= run2.keys;
    ContinueKeeps(db', run2, a.failureCode);
  }

  lemma AnsweredKeeps(sha: string -> string, db: Db, run: AuthorizeRun, x: Input)
    requires Inv(sha, db) && RunStored(db, run) && RunTrying(run) && Runnable(Trying(run))
    requires x.answer.Answered? || x.answer.Errored?
    ensures var (db', pc') := StepTrying(db, run, x);
      Inv(sha, db') && Extends(db, db') && PcInv(sha, db', pc')
  {
    hide Inv, Extends, Known, RunTrying, RunFinished, ContinueOrStop, InsertAttempt, NewAttempt;
    var key := run.keys[|run.tried|];
    var a := NewAttempt(run.payment, key, x.answer, x.newId, x.now);
    NewAttemptFacts(run.payment, key, x.answer, x.newId, x.now);
    ProcessingReached(db, run.payment);
    AttemptKeeps(sha, db, a);
    ExtendsItself(db);
    if !x.fault && InsertAttempt(db, a).1.Ok? {
      WithAttemptKeeps(db, InsertAttempt(db, a).0, run, a);
    }
  }

  /** The run after a key that no connector is registered for. */
  function WithoutConnector(run: AuthorizeRun): AuthorizeRun
    requires |run.tried| < |run.keys|
  {
    var key := run.keys[|run.tried|];
    run.(tried := run.tried + [key], lastKey := key, lastStatus := Failed)
  }

  lemma UnregisteredKeeps(db: Db, run: AuthorizeRun)
    requires RunStored(db, run) && RunTrying(run) && Runnable(Trying(run))
    ensures var pc := ContinueOrStop(WithoutConnector(run), Some("CONNECTOR_UNAVAILABLE"));
      && (pc.Trying? ==> RunStored(db, pc.run) && RunTrying(pc.run))
      && (pc.Finishing? ==> RunStored(db, pc.run) && RunFinished(pc.run))
      && (pc.Trying? || pc.Finishing?)
  {
    hide Known, Routed, ContinueOrStop;
    var run1 := WithoutConnector(run);
    assert run1.tried <= run1.keys;
    ContinueKeeps(db, run1, Some("CONNECTOR_UNAVAILABLE"));
  }

  lemma TryingKeeps(sha: string -> string, db: Db, run: AuthorizeRun, x: Input)
    requires Inv(sha, db) && RunStored(db, run) && RunTrying(run) && Runnable(Trying(run))
    ensures var (db', pc') := StepTrying(db, run, x);
      Inv(sha, db') && Extends(db, db') && PcInv(sha, db', pc')
  {
    hide Inv, Extends, Known, RunTrying, RunFinished, ContinueOrStop;
    ExtendsItself(db);
    if x.answer.Answered? || x.answer.Errored? {
      AnsweredKeeps(sha, db, run, x);
    } else if x.answer.NotRegistered? {
      UnregisteredKeeps(db, run);
    }
  }

  lemma DecidingKeeps(sha: string -> string, db: Db, held: Payment, x: Input)
    requires Known(db, held) && held.status == Processing
    ensures PcInv(sha, db, StepDeciding(held, x))
  {
    hide Known, Ranking;
    var ranking := Ranking(x.rules, x.fallback, ContextOf(held), x.catalogue);
    if ranking != [] { assert RoutedBy(held, DecisionFor(ranking, x.fallback), x.rules, x.catalogue); }
  }

  lemma ReadKeeps(sha: string -> string, db: Db, pc: Pc, x: Input)
    requires Inv(sha, db) && PcInv(sha, db, pc)
    requires pc.Fetch? || pc.Replaying?
    ensures PcInv(sha, db, Step(sha, db, pc, x).1)
  {
    hide Inv;
    match pc
    case Replaying(c, id) => InvRowIsKnown(sha, db, id);
    case Fetch(tenant, id, _) => if id in db.payments { InvRowIsKnown(sha, db, id); }
  }

  lemma InvRowIsKnown(sha: string -> string, db: Db, id: Uuid)
    requires Inv(sha, db) && id in db.payments
    ensures Known(db, db.payments[id])
  {
    RowIsKnown(db, id);
  }

  lemma FetchedKeeps(sha: string -> string, db: Db, held: Payment, goal: Goal, x: Input)
    requires Inv(sha, db) && Known(db, held)
    ensures var (db', pc') := StepFetched(db, held, goal, x);
      Inv(sha, db') && Extends(db, db') && PcInv(sha, db', pc')
  {
    hide Inv, Extends, Known;
    ExtendsItself(db);
    match goal
    case Cancel(actor) => FinishKeeps(sha, db, held, Cancelled, Merchant(actor), PaymentCancelled, x);
    case Refund(actor) => FinishKeeps(sha, db, held, Refunded, Merchant(actor), PaymentRefunded, x);
    case _ => ExpiryKeeps(sha, db, held, goal, x);
  }

  lemma ExpiryKeeps(sha: string -> string, db: Db, held: Payment, goal: Goal, x: Input)
    requires Inv(sha, db) && Known(db, held) && !goal.Cancel? && !goal.Refund?
    ensures var (db', pc') := StepFetched(db, held, goal, x);
      Inv(sha, db') && Extends(db, db') && PcInv(sha, db', pc')
  {
    hide Inv, Extends, Known;
    ExtendsItself(db);
    ExpiryOnlyBeforeProcessing(held, x.now);
    if ExpiryTarget(held, x.now).Some? {
      ApplyKeeps(sha, db, held, Expired, SystemExpiry, PaymentExpired, x);
      var (db', r) := ApplyStatus(db, held, Expired, SystemExpiry, PaymentExpired, x);
      assert StepFetched(db, held, goal, x) ==
        (db', match r case Ok(p) => Have(p, goal) case Err(e) => Fail(e));
    } else {
      assert StepFetched(db, held, goal, x) == (db, Have(held, goal));
    }
  }

  lemma HaveKeeps(sha: string -> string, db: Db, held: Payment, goal: Goal, x: Input)
    requires Inv(sha, db) && Known(db, held)
    ensures var (db', pc') := StepHave(db, held, goal, x);
      Inv(sha, db') && Extends(db, db') && PcInv(sha, db', pc')
  {
    hide Inv, Extends, Known;
    ExtendsItself(db);
    match goal
    case Authorize(approve) =>
      if TerminalForAuthorize(held.status) || (approve && held.status == Processing) {
      } else if approve {
        ApplyKeeps(sha, db, held, Processing, DemoWallet, PaymentProcessing, x);
      } else {
        FinishKeeps(sha, db, held, Failed, DemoWallet, PaymentFailed, x);
      }
    case Resolve(approves, admin) =>
      if approves {
        FinishKeeps(sha, db, held, Settled, Admin(admin), PaymentSettled, x);
      } else {
        FinishKeeps(sha, db, held, Failed, Admin(admin), PaymentFailed, x);
      }
    case _ =>
  }

  lemma FinishingKeeps(sha: string -> string, db: Db, run: AuthorizeRun, x: Input)
    requires Inv(sha, db) && RunStored(db, run) && RunFinished(run)
    ensures var (db', pc') := StepFinishing(db, run, x);
      Inv(sha, db') && Extends(db, db') && PcInv(sha, db', pc')
  {
    hide Inv, Extends, Known, RunFinished;
    ApplyKeeps(sha, db, run.payment, run.lastStatus, Connector(run.lastKey), EventFor(run.lastStatus), x);
    RunStoredStays(db, StepFinishing(db, run, x).0, run);
  }

  lemma PollingKeeps(sha: string -> string, db: Db, held: Payment, x: Input)
    requires Inv(sha, db) && Known(db, held) && held.status == Processing
    ensures var (db', pc') := StepPolling(db, held, x);
      Inv(sha, db') && Extends(db, db') && PcInv(sha, db', pc')
  {
    hide Inv, Extends, Known;
    ExtendsItself(db);
    if x.fetched.Fetches? {
      var next := IntoPaymentStatus(x.fetched.status);
      if next != Processing { FinishKeeps(sha, db, held, next, ReconcilerWorker, EventFor(next), x); }
    }
  }

  lemma ListDueKeeps(sha: string -> string, db: Db, limit: nat, x: Input)
    requires Inv(sha, db)
    ensures PcInv(sha, db, StepListDue(db, limit, x))
  {
    forall p | p in ListExpirable(db, x.now, x.visit) ensures Known(db, p) {
      ListExpirableRows(db, x.now, x.visit, p);
      var id :| id in x.visit && ListedExpirable(db, x.now, id) && p == db.payments[id];
      RowIsKnown(db, id);
    }
  }

  lemma ExpiringKeeps(sha: string -> string, db: Db, due: seq<Payment>, asOf: int, n: nat, x: Input)
    requires Inv(sha, db) && forall p :: p in due ==> Known(db, p)
    ensures var (db', pc') := StepExpiring(db, due, asOf, n, x);
      Inv(sha, db') && Extends(db, db') && PcInv(sha, db', pc')
  {
    hide Inv, Extends, Known;
    ExtendsItself(db);
    if due != [] {
      ExpiryOnlyBeforeProcessing(due[0], asOf);
      ApplyKeeps(sha, db, due[0], Expired, SystemExpiry, PaymentExpired, x);
      var db' := StepExpiring(db, due, asOf, n, x).0;
      assert Inv(sha, db') && Extends(db, db');
      forall p | p in due[1..] ensures Known(db', p) { KnownStays(db, db', p); }
    }
  }

  lemma StepKeeps(sha: string -> string, db: Db, pc: Pc, x: Input)
    requires Inv(sha, db) && PcInv(sha, db, pc) && Runnable(pc)
    ensures var (db', pc') := Step(sha, db, pc, x);
      Inv(sha, db') && Extends(db, db') && PcInv(sha, db', pc')
  {
    hide Inv, Extends, Known;
    hide StepLookup, StepInsert, StepFetched, StepHave, StepDeciding, StepTrying, StepFinishing, StepPolling;
    hide StepListDue, StepExpiring;
    ExtendsItself(db);
    match pc
    case Lookup(c) => LookupKeeps(sha, db, c, x);
    case Inserting(c, p) => InsertKeeps(sha, db, c, p, x);
    case Replaying(_, _) => ReadKeeps(sha, db, pc, x);
    case Fetch(_, _, _) => ReadKeeps(sha, db, pc, x);
    case Deciding(held) => DecidingKeeps(sha, db, held, x);
    case Fetched(held, goal) => FetchedKeeps(sha, db, held, goal, x);
    case Have(held, goal) => HaveKeeps(sha, db, held, goal, x);
    case Trying(run) => TryingKeeps(sha, db, run, x);
    case Finishing(run) => FinishingKeeps(sha, db, run, x);
    case Polling(held, _) => PollingKeeps(sha, db, held, x);
    case ListDue(limit) => ListDueKeeps(sha, db, limit, x);
    case Expiring(due, asOf, n) => ExpiringKeeps(sha, db, due, asOf, n, x);
    case _ =>
  }

  lemma StartKeeps(sha: string -> string, db: Db, pc: Pc)
    requires IsStart(pc)
    ensures PcInv(sha, db, pc)
  {
  }

  lemma NextKeeps(sha: string -> string, s: State, e: Event)
    requires SystemInv(sha, s)
    ensures SystemInv(sha, Next(sha, s, e)) && Extends(s.db, Next(sha, s, e).db)
  {
    hide Inv, Extends, PcInv, Step;
    ExtendsItself(s.db);
    var s' := Next(sha, s, e);
    if e.Start? && IsStart(e.program) { StartKeeps(sha, s.db, e.program); }
    if e.Advance? && e.client in s.clients && Runnable(s.clients[e.client]) {
      StepKeeps(sha, s.db, s.clients[e.client], e.input);
      forall c | c in s'.clients ensures PcInv(sha, s'.db, s'.clients[c]) {
        if c != e.client { PcInvStays(sha, s.db, s'.db, s.clients[c]); }
      }
    }
  }

  lemma InitialInv(sha: string -> string)
    ensures SystemInv(sha, INITIAL)
  {
  }

  /** Every reachable state satisfies the invariant. */
  lemma {:induction false} Reachable(sha: string -> string, events: seq<Event>)
    ensures SystemInv(sha, Run(sha, events))
  {
    hide Inv, PcInv, Next;
    if events == [] {
      InitialInv(sha);
    } else {
      Reachable(sha, events[..|events| - 1]);
      NextKeeps(sha, Run(sha, events[..|events| - 1]), events[|events| - 1]);
    }
  }

  /** An operation that has the store to itself keeps the invariant too, and its answer is backed by the database. */
  lemma {:induction false} RunAloneKeeps(sha: string -> string, db: Db, pc: Pc, env: nat -> Input, k: nat)
    requires Inv(sha, db) && PcInv(sha, db, pc) && Runnable(pc)
    ensures var (db', o) := RunAlone(sha, db, pc, env, k);
      Inv(sha, db') && Extends(db, db') && OutcomeInv(sha, db', o)
    decreases Left(pc)
  {
    hide Inv, Extends, Step, OutcomeInv;
    if pc.Done? {
      ExtendsItself(db);
    } else {
      var (db1, pc1) := Step(sha, db, pc, env(k));
      StepKeeps(sha, db, pc, env(k));
      RunAloneKeeps(sha, db1, pc1, env, k + 1);
      ExtendsTransitive(db, db1, RunAlone(sha, db1, pc1, env, k + 1).0);
    }
  }

  lemma ReachableOutcome(sha: string -> string, events: seq<Event>, c: nat)
    requires c in Run(sha, events).clients && Run(sha, events).clients[c].Done?
    ensures Inv(sha, Run(sha, events).db)
    ensures OutcomeInv(sha, Run(sha, events).db, Run(sha, events).clients[c].outcome)
  {
    hide Inv, OutcomeInv;
    Reachable(sha, events);
    assert PcInv(sha, Run(sha, events).db, Run(sha, events).clients[c]);
  }

  /** Along a run the database only grows. */
  lemma {:induction false} RunExtends(sha: string -> string, events: seq<Event>, n: nat)
    requires n <= |events|
    ensures Extends(Run(sha, events[..n]).db, Run(sha, events).db)
  {
    hide SystemInv, Extends, Next;
    if n == |events| {
      assert events[..n] == events;
      ExtendsItself(Run(sha, events).db);
    } else {
      var before := events[..|events| - 1];
      RunExtends(sha, before, n);
      assert before[..n] == events[..n];
      Reachable(sha, before);
      NextKeeps(sha, Run(sha, before), events[|events| - 1]);
      ExtendsTransitive(Run(sha, events[..n]).db, Run(sha, before).db, Run(sha, events).db);
    }
  }
}
