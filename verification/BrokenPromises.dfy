/**
 Failing inputs: for every condition under which an ambiguous payment stays in
 Processing, what happens without it, in general and in calls that are written out.
 */
module BrokenPromises {
  import opened Wrappers
  import opened Ids
  import opened Status
  import opened Rows
  import opened Store
  import opened Routing
  import opened Machine
  import opened Ledger
  import opened System
  import opened Service
  import opened Outcomes
  import opened Reconciling
  import opened SingleRoute
  import opened Ambiguity
  import opened AmbiguousRows
  import opened Calls

  // ----- What a call leaves behind -----

  lemma StepInsertGrows(sha: string -> string, db: Db, c: CreateCommand, p: Payment, x: Input)
    ensures OutboxGrowsBy(db, StepInsert(sha, db, c, p, x).0, x.eventId)
  {
  }

  lemma FinishGrowsOutbox(db: Db, held: Payment, next: PaymentStatus, actor: Actor, event: EventType, x: Input)
    ensures OutboxGrowsBy(db, ApplyAndFinish(db, held, next, actor, event, x).0, x.eventId)
  {
    hide ApplyStatus, OutboxGrowsBy;
    ApplyGrowsOutbox(db, held, next, actor, event, x);
  }

  lemma FetchedGrowsOutbox(db: Db, held: Payment, goal: Goal, x: Input)
    ensures OutboxGrowsBy(db, StepFetched(db, held, goal, x).0, x.eventId)
  {
    hide ApplyStatus, ApplyAndFinish, OutboxGrowsBy;
    OutboxGrowsNot(db, x.eventId);
    match goal
    case Cancel(actor) => FinishGrowsOutbox(db, held, Cancelled, Merchant(actor), PaymentCancelled, x);
    case Refund(actor) => FinishGrowsOutbox(db, held, Refunded, Merchant(actor), PaymentRefunded, x);
    case _ =>
      ExpiryOnlyBeforeProcessing(held, x.now);
      ApplyGrowsOutbox(db, held, Expired, SystemExpiry, PaymentExpired, x);
  }

  lemma HaveGrowsOutbox(db: Db, held: Payment, goal: Goal, x: Input)
    ensures OutboxGrowsBy(db, StepHave(db, held, goal, x).0, x.eventId)
  {
    hide ApplyStatus, ApplyAndFinish, OutboxGrowsBy, ListAttempts, ReconcilableAttempt;
    OutboxGrowsNot(db, x.eventId);
    match goal
    case Authorize(approve) =>
      FinishGrowsOutbox(db, held, Failed, DemoWallet, PaymentFailed, x);
      ApplyGrowsOutbox(db, held, Processing, DemoWallet, PaymentProcessing, x);
    case Resolve(approves, admin) =>
      FinishGrowsOutbox(db, held, Settled, Admin(admin), PaymentSettled, x);
      FinishGrowsOutbox(db, held, Failed, Admin(admin), PaymentFailed, x);
    case _ =>
  }

  lemma OthersGrowOutbox(sha: string -> string, db: Db, pc: Pc, x: Input)
    requires Runnable(pc) && (pc.Trying? || pc.Finishing? || pc.Polling? || pc.Expiring?)
    ensures OutboxGrowsBy(db, Step(sha, db, pc, x).0, x.eventId)
  {
    hide ApplyStatus, OutboxGrowsBy, ShouldTryNext, NewAttempt;
    OutboxGrowsNot(db, x.eventId);
    match pc
    case Trying(run) => SameOutboxGrows(db, StepTrying(db, run, x).0, x.eventId);
    case Finishing(run) =>
      ApplyGrowsOutbox(db, run.payment, run.lastStatus, Connector(run.lastKey), EventFor(run.lastStatus), x);
    case Polling(held, _) =>
      if x.fetched.Fetches? {
        var next := IntoPaymentStatus(x.fetched.status);
        ApplyGrowsOutbox(db, held, next, ReconcilerWorker, EventFor(next), x);
      }
    case Expiring(due, asOf, _) =>
      if due != [] {
        ExpiryOnlyBeforeProcessing(due[0], asOf);
        ApplyGrowsOutbox(db, due[0], Expired, SystemExpiry, PaymentExpired, x);
      }
  }

  lemma SameOutboxGrows(db: Db, db': Db, id: Uuid)
    requires db'.outbox == db.outbox
    ensures OutboxGrowsBy(db, db', id)
  {
  }

  lemma StepGrowsOutbox(sha: string -> string, db: Db, pc: Pc, x: Input)
    requires Runnable(pc)
    ensures OutboxGrowsBy(db, Step(sha, db, pc, x).0, x.eventId)
  {
    hide StepLookup, StepFetched, StepHave, StepDeciding, StepTrying, StepFinishing, StepPolling, StepListDue;
    hide StepInsert, StepExpiring, StepFindAttempt, OutboxGrowsBy;
    OutboxGrowsNot(db, x.eventId);
    match pc
    case Fetched(held, goal) => FetchedGrowsOutbox(db, held, goal, x);
    case Have(held, goal) => HaveGrowsOutbox(db, held, goal, x);
    case Inserting(c, p) => StepInsertGrows(sha, db, c, p, x);
    case Trying(_) => OthersGrowOutbox(sha, db, pc, x);
    case Finishing(_) => OthersGrowOutbox(sha, db, pc, x);
    case Polling(_, _) => OthersGrowOutbox(sha, db, pc, x);
    case Expiring(_, _, _) => OthersGrowOutbox(sha, db, pc, x);
    case _ =>
  }

  /** A position whose program never polls. */
  predicate NeverPolls(pc: Pc) {
    match pc
    case Polling(_, _) => false
    case Fetch(_, _, goal) => goal != Reconcile
    case Fetched(_, goal) => goal != Reconcile
    case Have(_, goal) => goal != Reconcile
    case _ => true
  }

  lemma NeverPollsLater(sha: string -> string, db: Db, pc: Pc, x: Input)
    requires Runnable(pc) && NeverPolls(pc)
    ensures NeverPolls(Step(sha, db, pc, x).1)
  {
    hide StepDeciding, StepTrying, StepFinishing, StepListDue, StepExpiring, StepInsert, StepLookup, StepFetched;
    hide StepHave;
    hide StepFindAttempt;
    match pc
    case Fetched(held, goal) => FetchedLeavesAttempts(db, held, goal, x);
    case Have(held, goal) => HaveNeverPolls(db, held, goal, x);
    case Deciding(held) => DecidingShape(held, x);
    case Trying(run) => TryingGrows(db, run, x);
    case Lookup(c) => LookupIsEarly(sha, db, c, x);
    case ListDue(limit) => ListIsEarly(db, limit, x);
    case FindAttempt(tenant, a, approves, admin) => FindResolves(db, tenant, a, approves, admin, x);
    case Inserting(_, _) => OthersLeaveAttempts(sha, db, pc, x);
    case Finishing(_) => OthersLeaveAttempts(sha, db, pc, x);
    case Expiring(_, _, _) => OthersLeaveAttempts(sha, db, pc, x);
    case _ =>
  }

  lemma HaveNeverPolls(db: Db, held: Payment, goal: Goal, x: Input)
    requires goal != Reconcile
    ensures NeverPolls(StepHave(db, held, goal, x).1)
  {
    hide ApplyStatus;
  }

  lemma FindResolves(db: Db, tenant: Uuid, a: Uuid, approves: bool, admin: string, x: Input)
    ensures NeverPolls(StepFindAttempt(db, tenant, a, approves, admin, x))
  {
  }

  /** What a whole call that never polls does to attempts, to the reconciler's rows and to outbox ids. */
  lemma {:induction false} CallLeaves(sha: string -> string, db: Db, pc: Pc, env: nat -> Input, k: nat, id: Uuid)
    requires Runnable(pc) && NeverPolls(pc)
    ensures var db' := RunAlone(sha, db, pc, env, k).0;
      && (Open(db, id) ==> Open(db', id)) && (ByReconciler(db', id) <==> ByReconciler(db, id))
      && forall u :: OutboxIdTaken(db', u) ==> OutboxIdTaken(db, u) || exists j :: env(j).eventId == u
    decreases Left(pc)
  {
    hide Step, Open, ByReconciler, OutboxIdTaken, NeverPolls;
    if !pc.Done? {
      var (db1, pc1) := Step(sha, db, pc, env(k));
      OpensIff(sha, db, pc, env(k), id);
      NotPolling(pc);
      ReconcilerIff(sha, db, pc, env(k), id);
      StepGrowsOutbox(sha, db, pc, env(k));
      NeverPollsLater(sha, db, pc, env(k));
      CallLeaves(sha, db1, pc1, env, k + 1, id);
    }
  }

  lemma NotPolling(pc: Pc)
    requires NeverPolls(pc)
    ensures !pc.Polling?
  {
  }

  // ----- Conditions that fail -----

  /** The payment is Processing with an ambiguous outcome that nobody has reconciled. */
  predicate Waiting(db: Db, tenant: Uuid, id: Uuid) {
    && id in db.payments && db.payments[id].id == id && db.payments[id].tenant == tenant
    && db.payments[id].status == Processing && Open(db, id) && !ByReconciler(db, id)
  }

  /** The payer rejects: the payment is Failed although its ambiguous attempt is open. */
  lemma RejectionBreaks(sha: string -> string, db: Db, tenant: Uuid, id: Uuid, env: nat -> Input)
    requires Waiting(db, tenant, id) && Undisturbed(db, env)
    ensures var db' := RunAlone(sha, db, Fetch(tenant, id, Authorize(false)), env, 0).0;
      id in db'.payments && db'.payments[id].status == Failed && !PromiseAt(db', id)
  {
    hide RunAlone, ApplyStatus, Open, ByReconciler, OutboxIdTaken, Written;
    var p, goal := db.payments[id], Authorize(false);
    CallLeaves(sha, db, Fetch(tenant, id, goal), env, 0, id);
    Unroll(sha, db, Fetch(tenant, id, goal), env, 0);
    Unroll(sha, db, Fetched(p, goal), env, 1);
    ReadLeavesProcessed(db, p, goal, env(1));
    Unroll(sha, db, Have(p, goal), env, 2);
    ApplySucceedsIff(db, p, Failed, DemoWallet, PaymentFailed, env(2));
  }

  /** The payer approves again and the connector fails: the same. */
  lemma SecondApprovalBreaks(sha: string -> string, db: Db, tenant: Uuid, id: Uuid, env: nat -> Input)
    requires Waiting(db, tenant, id) && Undisturbed(db, env)
    requires Connects(db.attempts, db.payments[id], env) && env(4).answer.status == AFailed
    ensures var db' := RunAlone(sha, db, Fetch(tenant, id, Authorize(true)), env, 0).0;
      id in db'.payments && db'.payments[id].status == Failed && !PromiseAt(db', id)
  {
    hide RunAlone, ApplyStatus, Open, ByReconciler, OutboxIdTaken, Connects, StepDeciding, AnswerWritten, FirstKey;
    var p, goal := db.payments[id], Authorize(true);
    CallLeaves(sha, db, Fetch(tenant, id, goal), env, 0, id);
    Unroll(sha, db, Fetch(tenant, id, goal), env, 0);
    Unroll(sha, db, Fetched(p, goal), env, 1);
    ReadLeavesProcessed(db, p, goal, env(1));
    Unroll(sha, db, Have(p, goal), env, 2);
    assert StepHave(db, p, goal, env(2)) == (db, Deciding(p));
    RoutedCallEnds(sha, db, p, env);
    ConnectorAnswers(db.attempts, p, env);
    var (db', o) := RunAlone(sha, db, Deciding(p), env, 3);
    FailureIsWritten(db.(attempts := db.attempts + [FirstAttempt(p, env)]), db', o, p, FirstKey(p, env(3)), env(5));
  }

  lemma ConnectorAnswers(attempts: seq<Attempt>, p: Payment, env: nat -> Input)
    requires Connects(attempts, p, env)
    ensures env(4).answer.Answered?
  {
  }

  lemma FailureIsWritten(db: Db, db': Db, o: Outcome, q: Payment, key: string, x: Input)
    requires AnswerWritten(db, db', o, q, key, AFailed, x)
    ensures q.id in db'.payments && db'.payments[q.id].status == Failed
  {
  }

  /** An admin decides the attempt by hand, either way. */
  lemma DecisionBreaks(sha: string -> string, db: Db, tenant: Uuid, a: Attempt, approves: bool, admin: string,
                       env: nat -> Input)
    requires Inv(sha, db) && Waiting(db, tenant, a.payment) && Undisturbed(db, env) && env(0).resolverOk
    requires GetAttempt(db.attempts, tenant, a.id) == Some(a) && a.providerReference.Some?
    ensures var db' := RunAlone(sha, db, FindAttempt(tenant, a.id, approves, admin), env, 0).0;
      && a.payment in db'.payments && db'.payments[a.payment].status == (if approves then Settled else Failed)
      && !PromiseAt(db', a.payment)
  {
    hide Inv, RunAlone, Open, ByReconciler, GetAttempt;
    CallLeaves(sha, db, FindAttempt(tenant, a.id, approves, admin), env, 0, a.payment);
    ResolveIff(sha, db, tenant, a.id, approves, admin, env);
  }

  /** A policy that can pass over a timeout: some answers of the connectors lose the outcome within one call. */
  lemma PolicyBreaks(sha: string -> string, db: Db, run: AuthorizeRun, ids: seq<Uuid>, event: Uuid, reference: string)
    returns (env: nat -> Input)
    requires Fresh(db, run) && CanLose(db, run) && Unused(db, ids, event, reference)
    requires reference != "timeout_" + AsPrefixed(PAYMENT, run.payment.id) && !ByReconciler(db, run.payment.id)
    ensures !PromiseAt(RunAlone(sha, db, Trying(run), env, 0).0, run.payment.id)
  {
    hide RunAlone, RunTrying, RunStored, CanLose, Unused, AsPrefixed, Open, ByReconciler, Loses;
    env := LosesIfPossible(sha, db, run, ids, event, reference);
    CallLeaves(sha, db, Trying(run), env, 0, run.payment.id);
  }

  // ----- A second routing -----

  lemma OneStep(sha: string -> string, events: seq<Event>, c: nat, x: Input, db': Db, pc': Pc)
    requires c in Run(sha, events).clients && Runnable(Run(sha, events).clients[c])
    requires Step(sha, Run(sha, events).db, Run(sha, events).clients[c], x) == (db', pc')
    ensures Run(sha, events + [Advance(c, x)]) == State(db', Run(sha, events).clients[c := pc'])
  {
    hide Run, Step;
    RunAppend(sha, events, Advance(c, x));
  }

  /** Only client `c` has moved. */
  ghost predicate OnlyMoved(s: State, s': State, c: nat) {
    c in s'.clients && forall d :: d in s'.clients && d != c ==> d in s.clients && s'.clients[d] == s.clients[d]
  }

  /** From its routing a client takes two steps: its connector has answered, its write is still to come. */
  lemma ReachesFinishing(sha: string -> string, events: seq<Event>, c: nat, env: nat -> Input, q: Payment)
    returns (all: seq<Event>, run: AuthorizeRun)
    requires c in Run(sha, events).clients && Run(sha, events).clients[c] == Deciding(q)
    requires q.id in Run(sha, events).db.payments && Connects(Run(sha, events).db.attempts, q, env)
    ensures OnlyMoved(Run(sha, events), Run(sha, all), c) && Run(sha, all).clients[c] == Finishing(run)
    ensures events <= all
    ensures StoresAnswer(Run(sha, events).db, Run(sha, all).db, q, env(4))
  {
    hide Run, StepDeciding, StepTrying, Connects, StoresAnswer;
    var db := Run(sha, events).db;
    var run0, db2;
    run0, run, db2 := AnswerEndsLoop(db, q, env);
    AnswerIsStored(db, q, env, run0, db2, run);
    var e1 := events + [Advance(c, env(3))];
    OneStep(sha, events, c, env(3), db, Trying(run0));
    all := e1 + [Advance(c, env(4))];
    OneStep(sha, e1, c, env(4), db2, Finishing(run));
  }

  predicate StoresAnswer(db: Db, db': Db, q: Payment, x: Input) {
    && db' == db.(attempts := db'.attempts) && db.attempts <= db'.attempts && |db'.attempts| == |db.attempts| + 1
    && var a := db'.attempts[|db.attempts|];
    && AnsweredFor(a, q.id) && a.id == x.newId
    && x.answer.Answered? && a.status == x.answer.status && a.providerReference == Some(x.answer.reference)
  }

  lemma AnswerIsStored(db: Db, q: Payment, env: nat -> Input, run0: AuthorizeRun, db2: Db, run: AuthorizeRun)
    requires q.id in db.payments && Connects(db.attempts, q, env)
    requires StepDeciding(q, env(3)) == Trying(run0) && Runnable(Trying(run0))
    requires StepTrying(db, run0, env(4)) == (db2, Finishing(run))
    ensures StoresAnswer(db, db2, q, env(4))
  {
    hide Ranking, ShouldTryNext;
    var a := NewAttempt(q, run0.keys[0], env(4).answer, env(4).newId, env(4).now);
    assert !AttemptRefused(db, a);
  }

  /**
   Wherever in a run an approving call is about to go on with a payment that it found Processing and that has an answer
   already, three more steps of that call can store a second answer: no run in which such a call goes on is safe.
   */
  lemma ReapprovalAnswersTwice(sha: string -> string, events: seq<Event>, c: nat, env: nat -> Input, id: Uuid, i: nat)
    returns (all: seq<Event>)
    requires Reapproves(Run(sha, events), Advance(c, env(2)), id)
    requires i < |Run(sha, events).db.attempts| && AnsweredFor(Run(sha, events).db.attempts[i], id)
    requires Connects(Run(sha, events).db.attempts, Run(sha, events).clients[c].held, env)
    ensures events <= all && !AtMostOneAnswered(Run(sha, all).db.attempts, id)
  {
    hide Run, StepHave, Connects, Inv, Known;
    var s := Run(sha, events);
    var p := s.clients[c].held;
    Reachable(sha, events);
    assert PcInv(sha, s.db, s.clients[c]);
    KnownExists(s.db, p);
    GoesOnProcessing(s.db, p, env(2));
    var e1 := events + [Advance(c, env(2))];
    OneStep(sha, events, c, env(2), s.db, Deciding(p));
    var run;
    all, run := ReachesFinishing(sha, e1, c, env, p);
    var attempts := Run(sha, all).db.attempts;
    assert attempts[i] == s.db.attempts[i] && AnsweredFor(attempts[|s.db.attempts|], id);
  }

  lemma KnownExists(db: Db, p: Payment)
    requires Known(db, p)
    ensures p.id in db.payments
  {
  }

  lemma GoesOnProcessing(db: Db, p: Payment, x: Input)
    requires p.status == Processing
    ensures StepHave(db, p, Authorize(true), x) == (db, Deciding(p))
  {
  }
}
