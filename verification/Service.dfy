/**
 The service as it is written: methods that call the store and change it, with
 the fallback loop and the batch loops. Each method is proved to do exactly what
 its step program does when it has the store to itself, so the two forms cannot
 drift apart. `env(k)` is what the outside world answers at step `k`.
 */
module Service {
  import opened Wrappers
  import opened Ids
  import opened Status
  import opened Rows
  import opened Store
  import opened Fingerprint
  import opened Routing
  import opened Machine

  /** One step of a program that is not done: it either finishes or goes on. */
  lemma Unroll(sha: string -> string, db: Db, pc: Pc, env: nat -> Input, k: nat)
    requires Runnable(pc) && !pc.Done?
    ensures var (db', pc') := Step(sha, db, pc, env(k));
      RunAlone(sha, db, pc, env, k)
      == if pc'.Done? then (db', pc'.outcome) else RunAlone(sha, db', pc', env, k + 1)
  {
    hide Step;
  }

  function Answer(r: Result<Payment, StoreError>): Outcome {
    match r
    case Ok(p) => OkPayment(p)
    case Err(e) => Refused(StoreSays(e))
  }

  /** Reconcile several payments one after the other, counting the answers that are not errors. */
  function ReconcileEach(sha: string -> string, db: Db, rows: seq<(Uuid, Uuid)>, envs: nat -> nat -> Input,
        i: nat): (Db, nat)
    requires i <= |rows|
    decreases |rows| - i
  {
    if i == |rows| then (db, 0)
    else
      var (db1, o) := RunAlone(sha, db, Fetch(rows[i].0, rows[i].1, Reconcile), envs(i), 0);
      var (db2, n) := ReconcileEach(sha, db1, rows, envs, i + 1);
      (db2, n + if o.Refused? then 0 else 1)
  }

  class PaymentService {
    const store: PgStore
    const sha: string -> string

    constructor (store: PgStore, sha: string -> string)
      ensures this.store == store && this.sha == sha
    {
      this.store := store;
      this.sha := sha;
    }

    method Apply(held: Payment, next: PaymentStatus, actor: Actor, event: EventType, x: Input)
      returns (r: Result<Payment, StoreError>)
      modifies store
      ensures (store.State(), r) == ApplyStatus(old(store.State()), held, next, actor, event, x)
    {
      if x.fault { return Err(Infra); }
      r := store.TransitionPayment(
        TransitionCommand(held.tenant, held.id, Some(held.version), next), x.now,
        AuditEvent(held.tenant, held.id, actor, event, ChangeMeta(held.status, next), x.now),
        PaymentOutbox(held, event, next, x.eventId, x.now));
    }

    method GetById(tenant: Uuid, id: Uuid, x: Input) returns (r: Result<Payment, StoreError>)
      ensures r == if x.fault then Err(Infra) else Store.GetById(store.State(), tenant, id)
    {
      if x.fault { return Err(Infra); }
      r := Store.GetById(store.State(), tenant, id);
    }

    /** Reads a payment, expiring it first when it is due; two steps of the program that wants it. */
    method GetPayment(tenant: Uuid, id: Uuid, goal: Goal, env: nat -> Input, k: nat)
      returns (r: Result<Payment, StoreError>)
      requires !goal.Cancel? && !goal.Refund?
      modifies store
      ensures RunAlone(sha, old(store.State()), Fetch(tenant, id, goal), env, k)
        == match r
           case Ok(p) => RunAlone(sha, store.State(), Have(p, goal), env, k + 2)
           case Err(e) => (store.State(), Refused(StoreSays(e)))
    {
      hide RunAlone, ApplyStatus, ExpiryTarget;
      ghost var db := store.State();
      var row := GetById(tenant, id, env(k));
      Unroll(sha, db, Fetch(tenant, id, goal), env, k);
      if row.Err? { return row; }
      var payment := row.value;
      Unroll(sha, db, Fetched(payment, goal), env, k + 1);
      var next := ExpiryTarget(payment, env(k + 1).now);
      if next.Some? {
        r := Apply(payment, next.value, SystemExpiry, PaymentExpired, env(k + 1));
      } else {
        r := Ok(payment);
      }
    }

    method CreatePayment(c: CreateCommand, env: nat -> Input) returns (o: Outcome)
      modifies store
      ensures (store.State(), o) == RunAlone(sha, old(store.State()), Lookup(c), env, 0)
    {
      hide RunAlone, FindKey, NewPayment, CreationAudit, RequestFingerprint, InsertPayment;
      ghost var db := store.State();
      Unroll(sha, db, Lookup(c), env, 0);
      if env(0).fault { return Refused(StoreSays(Infra)); }
      var fingerprint := RequestFingerprint(sha, c);
      var payment := NewPayment(c, env(0).newId, env(0).now);
      var existing := FindKey(store.idempotency, c.tenant, c.idempotencyKey);
      if existing.Some? {
        if existing.value.fingerprint != fingerprint { return Refused(StoreSays(IdempotencyMismatch)); }
        Unroll(sha, db, Replaying(c, existing.value.payment), env, 1);
        var stored := GetById(c.tenant, existing.value.payment, env(1));
        return match stored case Ok(p) => OkCreated(c, p, true) case Err(e) => Refused(StoreSays(e));
      }
      Unroll(sha, db, Inserting(c, payment), env, 1);
      if env(1).fault { return Refused(StoreSays(Infra)); }
      var r := store.InsertPaymentRows(payment, IdempotencyRow(c.tenant, c.idempotencyKey, fingerprint, payment.id),
        CreationAudit(payment, payment.createdAt),
        PaymentOutbox(payment, PaymentCreated, payment.status, env(1).eventId, payment.createdAt));
      o := match r case Ok(p) => OkCreated(c, p, false) case Err(e) => Refused(StoreSays(e));
    }

    method CancelPayment(tenant: Uuid, id: Uuid, actor: string, env: nat -> Input) returns (o: Outcome)
      modifies store
      ensures (store.State(), o) == RunAlone(sha, old(store.State()), Fetch(tenant, id, Cancel(actor)), env, 0)
    {
      hide RunAlone, ApplyStatus;
      ghost var db := store.State();
      Unroll(sha, db, Fetch(tenant, id, Cancel(actor)), env, 0);
      var row := GetById(tenant, id, env(0));
      if row.Err? { return Refused(StoreSays(row.error)); }
      var payment := row.value;
      Unroll(sha, db, Fetched(payment, Cancel(actor)), env, 1);
      if !Legal(payment.status, Cancelled) { return Refused(IllegalTransition); }
      var r := Apply(payment, Cancelled, Merchant(actor), PaymentCancelled, env(1));
      o := Answer(r);
    }

    method RefundPayment(tenant: Uuid, id: Uuid, actor: string, env: nat -> Input) returns (o: Outcome)
      modifies store
      ensures (store.State(), o) == RunAlone(sha, old(store.State()), Fetch(tenant, id, Refund(actor)), env, 0)
    {
      hide RunAlone, ApplyStatus;
      ghost var db := store.State();
      Unroll(sha, db, Fetch(tenant, id, Refund(actor)), env, 0);
      var row := GetById(tenant, id, env(0));
      if row.Err? { return Refused(StoreSays(row.error)); }
      var payment := row.value;
      Unroll(sha, db, Fetched(payment, Refund(actor)), env, 1);
      if payment.status != Settled && payment.status != PartiallyRefunded { return Refused(NotRefundable); }
      var r := Apply(payment, Refunded, Merchant(actor), PaymentRefunded, env(1));
      o := Answer(r);
    }

    method ExpireStalePayments(limit: nat, env: nat -> Input) returns (o: Outcome)
      modifies store
      ensures (store.State(), o) == RunAlone(sha, old(store.State()), ListDue(limit), env, 0)
    {
      hide RunAlone, ApplyStatus, ExpiryTarget, ListExpirable;
      ghost var db := store.State();
      Unroll(sha, db, ListDue(limit), env, 0);
      if env(0).fault { return Refused(StoreSays(Infra)); }
      var now := env(0).now;
      var due := store.ListExpirablePayments(now, env(0).visit);
      if |due| > limit { due := due[..limit]; }
      var n, i := 0, 0;
      while i < |due|
        invariant 0 <= i <= |due|
        invariant RunAlone(sha, db, ListDue(limit), env, 0)
          == RunAlone(sha, store.State(), Expiring(due[i..], now, n), env, i + 1)
      {
        Unroll(sha, store.State(), Expiring(due[i..], now, n), env, i + 1);
        assert due[i..][0] == due[i] && due[i..][1..] == due[i + 1..];
        var next := ExpiryTarget(due[i], now);
        if next.Some? {
          var r := Apply(due[i], next.value, SystemExpiry, PaymentExpired, env(i + 1));
          if r.Ok? { n := n + 1; }
        }
        i := i + 1;
      }
      Unroll(sha, store.State(), Expiring(due[i..], now, n), env, i + 1);
      o := OkCount(n);
    }

    method AuthorizePayment(tenant: Uuid, id: Uuid, approve: bool, env: nat -> Input) returns (o: Outcome)
      modifies store
      ensures (store.State(), o) == RunAlone(sha, old(store.State()), Fetch(tenant, id, Authorize(approve)), env, 0)
    {
      hide RunAlone, ApplyStatus;
      var goal := Authorize(approve);
      ghost var start := RunAlone(sha, store.State(), Fetch(tenant, id, goal), env, 0);
      var got := GetPayment(tenant, id, goal, env, 0);
      if got.Err? { return Refused(StoreSays(got.error)); }
      var payment := got.value;
      Unroll(sha, store.State(), Have(payment, goal), env, 2);
      if TerminalForAuthorize(payment.status) { return OkReplay(payment); }
      if !approve {
        var rejected := Apply(payment, Failed, DemoWallet, PaymentFailed, env(2));
        return Answer(rejected);
      }
      var processing := payment;
      if payment.status != Processing {
        var moved := Apply(payment, Processing, DemoWallet, PaymentProcessing, env(2));
        if moved.Err? { return Refused(StoreSays(moved.error)); }
        processing := moved.value;
      }
      assert start == RunAlone(sha, store.State(), Deciding(processing), env, 3);
      o := RouteAndTry(processing, env, start);
    }

    /** Routing, the bounded fallback loop and the final status. */
    method RouteAndTry(processing: Payment, env: nat -> Input, ghost start: (Db, Outcome)) returns (o: Outcome)
      requires start == RunAlone(sha, store.State(), Deciding(processing), env, 3)
      modifies store
      ensures (store.State(), o) == start
    {
      hide RunAlone, ApplyStatus, Ranking, InsertAttempt, NewAttempt, AllowsFailure;
      Unroll(sha, store.State(), Deciding(processing), env, 3);
      if env(3).fault { return Refused(StoreSays(Infra)); }
      var decided := EvaluatePolicy(env(3).rules, env(3).fallback, ContextOf(processing), env(3).catalogue);
      if decided.Err? { return Refused(NoRoute); }
      var decision := decided.value;
      var candidates := decision.rankedKeys;
      if candidates == [] { candidates := [decision.selected]; }
      var keys := if |candidates| <= AttemptLimit(decision.fallback) then candidates
          else candidates[..AttemptLimit(decision.fallback)];
      assert keys == KeysToTry(decision);

      var run := AuthorizeRun(processing, decision, keys, [], [], Processing, decision.selected);
      var index, k := 0, 4;
      while index < |keys|
        invariant 0 <= index < |keys| <= 8 && run.keys == keys && |run.tried| == index
        invariant run.payment == processing && run.decision == decision
        invariant start == RunAlone(sha, store.State(), Trying(run), env, k)
        decreases |keys| - index
      {
        Unroll(sha, store.State(), Trying(run), env, k);
        ghost var before := run;
        var key, x := keys[index], env(k);
        run := run.(lastKey := key, tried := run.tried + [key]);
        var code: Option<string>;
        if x.answer.NotRegistered? {
          run := run.(lastStatus := Failed);
          code := Some("CONNECTOR_UNAVAILABLE");
        } else if x.answer.NoCatalogRow? {
          return Refused(StoreSays(NotFound));
        } else {
          var attempt := NewAttempt(processing, key, x.answer, x.newId, x.now);
          if x.fault { return Refused(StoreSays(Infra)); }
          var stored := store.AddAttempt(attempt);
          if stored.Err? { return Refused(StoreSays(stored.error)); }
          run := run.(made := run.made + [attempt], lastStatus := IntoPaymentStatus(attempt.status));
          code := attempt.failureCode;
        }
        k := k + 1;
        assert start == RunAlone(sha, store.State(), ContinueOrStop(run, code), env, k);
        var remaining := |keys| - (index + 1);
        if code.Some? && ShouldTryNext(decision.fallback, code.value, index + 1, remaining) {
          index := index + 1;
          continue;
        }
        break;
      }
      o := Conclude(run, env, k, start);
    }

    method Conclude(run: AuthorizeRun, env: nat -> Input, k: nat, ghost start: (Db, Outcome)) returns (o: Outcome)
      requires start == RunAlone(sha, store.State(), Finishing(run), env, k)
      modifies store
      ensures (store.State(), o) == start
    {
      hide RunAlone, ApplyStatus;
      Unroll(sha, store.State(), Finishing(run), env, k);
      var updated := Apply(run.payment, run.lastStatus, Connector(run.lastKey), EventFor(run.lastStatus), env(k));
      o := match updated case Ok(p) => OkAuthorized(p, run) case Err(e) => Refused(StoreSays(e));
    }

    method ReconcilePayment(tenant: Uuid, id: Uuid, env: nat -> Input) returns (o: Outcome)
      modifies store
      ensures (store.State(), o) == RunAlone(sha, old(store.State()), Fetch(tenant, id, Reconcile), env, 0)
    {
      hide RunAlone, ApplyStatus, ListAttempts, ReconcilableAttempt;
      var got := GetPayment(tenant, id, Reconcile, env, 0);
      if got.Err? { return Refused(StoreSays(got.error)); }
      var payment := got.value;
      Unroll(sha, store.State(), Have(payment, Reconcile), env, 2);
      if payment.status != Processing { return OkPayment(payment); }
      if env(2).fault { return Refused(StoreSays(Infra)); }
      var found := ReconcilableAttempt(ListAttempts(store.State(), payment.tenant, payment.id));
      if found.None? || found.value.providerReference.None? { return Refused(ConnectorSays); }
      Unroll(sha, store.State(), Polling(payment, found.value), env, 3);
      if !env(3).fetched.Fetches? { return Refused(ConnectorSays); }
      var next := IntoPaymentStatus(env(3).fetched.status);
      if next == payment.status { return OkPayment(payment); }
      var r := Apply(payment, next, ReconcilerWorker, EventFor(next), env(3));
      o := Answer(r);
    }

    /** Reconciles what the query lists; one payment that fails does not stop the others. */
    method ReconcileStaleAttempts(limit: nat, listFault: bool, envs: nat -> nat -> Input)
      returns (r: Result<nat, StoreError>, ghost rows: seq<(Uuid, Uuid)>)
      modifies store
      ensures listFault ==> r == Err(Infra) && store.State() == old(store.State())
      ensures !listFault ==>
        && IsReconcilableList(old(store.State()), limit, rows)
        && r.Ok? && (store.State(), r.value) == ReconcileEach(sha, old(store.State()), rows, envs, 0)
    {
      hide RunAlone, ListedReconcilable;
      if listFault { return Err(Infra), []; }
      var listed := store.ListReconcilablePayments(limit);
      rows := listed;
      var n, i := 0, 0;
      ghost var all := ReconcileEach(sha, store.State(), rows, envs, 0);
      while i < |listed|
        invariant 0 <= i <= |listed|
        invariant var (db, m) := ReconcileEach(sha, store.State(), listed, envs, i); all == (db, n + m)
      {
        var o := ReconcilePayment(listed[i].0, listed[i].1, envs(i));
        if !o.Refused? { n := n + 1; }
        i := i + 1;
      }
      r := Ok(n);
    }

    method ResolveManualAttempt(tenant: Uuid, attempt: Uuid, approves: bool, admin: string, env: nat -> Input)
      returns (o: Outcome)
      modifies store
      ensures (store.State(), o)
          == RunAlone(sha, old(store.State()), FindAttempt(tenant, attempt, approves, admin), env, 0)
    {
      hide RunAlone, ApplyStatus, GetAttempt;
      Unroll(sha, store.State(), FindAttempt(tenant, attempt, approves, admin), env, 0);
      if env(0).fault { return Refused(StoreSays(Infra)); }
      var found := GetAttempt(store.attempts, tenant, attempt);
      if found.None? { return Refused(StoreSays(NotFound)); }
      var a := found.value;
      if a.providerReference.None? || !env(0).resolverOk { return Refused(ConnectorSays); }
      var goal := Resolve(approves, admin);
      var got := GetPayment(a.tenant, a.payment, goal, env, 1);
      if got.Err? { return Refused(StoreSays(got.error)); }
      var payment := got.value;
      Unroll(sha, store.State(), Have(payment, goal), env, 3);
      var r: Result<Payment, StoreError>;
      if approves {
        r := Apply(payment, Settled, Admin(admin), PaymentSettled, env(3));
      } else {
        r := Apply(payment, Failed, Admin(admin), PaymentFailed, env(3));
      }
      o := Answer(r);
    }
  }
}
