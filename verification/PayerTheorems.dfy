/** The payer's two decisions, whole calls: what each status makes of a rejection and of an approval. */
module PayerTheorems {
  import opened Ids
  import opened Status
  import opened Rows
  import opened Store
  import opened Routing
  import opened Machine
  import opened Outcomes
  import opened Service

  /** A read that expires nothing. */
  predicate StaysAsRead(p: Payment, now: int) {
    now < p.expiresAt || p.status !in {Pending, RequiresAction}
  }

  lemma ReadsAsStored(p: Payment, db: Db, approve: bool, x: Input)
    requires StaysAsRead(p, x.now)
    ensures StepFetched(db, p, Authorize(approve), x) == (db, Have(p, Authorize(approve)))
  {
    ExpiryOnlyBeforeProcessing(p, x.now);
  }

  /**
   An undisturbed rejection fails a payment that is Pending, RequiresAction, Processing, Authorized or RefundPending,
   returns one that has ended as it is, and is refused on any other.
   */
  lemma RejectIff(sha: string -> string, db: Db, tenant: Uuid, id: Uuid, env: nat -> Input)
    requires Undisturbed(db, env) && Exists(db, tenant, id) && StaysAsRead(db.payments[id], env(1).now)
    ensures var (db', o) := RunAlone(sha, db, Fetch(tenant, id, Authorize(false)), env, 0);
      var p := db.payments[id];
      if p.status in {Pending, RequiresAction, Processing, Authorized, RefundPending}
      then o == OkPayment(Moved(p, Failed, env(2))) && db' == Written(db, p, Failed, DemoWallet, PaymentFailed, env(2))
      else db' == db
           && o == if p.status in {Settled, Failed, Cancelled, Expired, Refunded} then OkReplay(p)
                   else Refused(StoreSays(Conflict))
  {
    hide RunAlone, Written, OutboxIdTaken, StepFetched;
    var p, goal := db.payments[id], Authorize(false);
    Unroll(sha, db, Fetch(tenant, id, goal), env, 0);
    Unroll(sha, db, Fetched(p, goal), env, 1);
    ReadsAsStored(p, db, false, env(1));
    Unroll(sha, db, Have(p, goal), env, 2);
    ApplySucceedsIff(db, p, Failed, DemoWallet, PaymentFailed, env(2));
  }

  /** Either decision on a payment that is due expires it and returns it expired. */
  lemma DueIsReplayed(sha: string -> string, db: Db, tenant: Uuid, id: Uuid, approve: bool, env: nat -> Input)
    requires Undisturbed(db, env) && Exists(db, tenant, id) && !StaysAsRead(db.payments[id], env(1).now)
    ensures var p := db.payments[id];
      RunAlone(sha, db, Fetch(tenant, id, Authorize(approve)), env, 0)
      == (Written(db, p, Expired, SystemExpiry, PaymentExpired, env(1)), OkReplay(Moved(p, Expired, env(1))))
  {
    hide RunAlone, Written, OutboxIdTaken;
    var p, goal := db.payments[id], Authorize(approve);
    Unroll(sha, db, Fetch(tenant, id, goal), env, 0);
    Unroll(sha, db, Fetched(p, goal), env, 1);
    ExpiryOnlyBeforeProcessing(p, env(1).now);
    ApplySucceedsIff(db, p, Expired, SystemExpiry, PaymentExpired, env(1));
    var db1 := Written(db, p, Expired, SystemExpiry, PaymentExpired, env(1));
    Unroll(sha, db1, Have(Moved(p, Expired, env(1)), goal), env, 2);
  }

  /**
   An undisturbed approval is routed from Processing: written when the payment was Pending or RequiresAction, found when
   it was Processing. It returns a payment that has ended as it is, and is refused on any other.
   */
  lemma ApprovalIsRoutedIff(sha: string -> string, db: Db, tenant: Uuid, id: Uuid, env: nat -> Input)
    requires Undisturbed(db, env) && Exists(db, tenant, id) && StaysAsRead(db.payments[id], env(1).now)
    ensures var result := RunAlone(sha, db, Fetch(tenant, id, Authorize(true)), env, 0);
      var p := db.payments[id];
      result ==
        if p.status in {Pending, RequiresAction}
        then RunAlone(sha, Written(db, p, Processing, DemoWallet, PaymentProcessing, env(2)),
                      Deciding(Moved(p, Processing, env(2))), env, 3)
        else if p.status == Processing then RunAlone(sha, db, Deciding(p), env, 3)
        else if p.status in {Settled, Failed, Cancelled, Expired, Refunded} then (db, OkReplay(p))
        else (db, Refused(StoreSays(Conflict)))
  {
    hide RunAlone, Written, OutboxIdTaken, StepFetched;
    var p, goal := db.payments[id], Authorize(true);
    Unroll(sha, db, Fetch(tenant, id, goal), env, 0);
    Unroll(sha, db, Fetched(p, goal), env, 1);
    ReadsAsStored(p, db, true, env(1));
    Unroll(sha, db, Have(p, goal), env, 2);
    ApplySucceedsIff(db, p, Processing, DemoWallet, PaymentProcessing, env(2));
  }

  /** Without a route the call is refused, and a payment that was Pending stays in Processing. */
  lemma NoRouteIsRefused(sha: string -> string, db: Db, tenant: Uuid, id: Uuid, env: nat -> Input)
    requires Undisturbed(db, env) && Exists(db, tenant, id) && StaysAsRead(db.payments[id], env(1).now)
    requires db.payments[id].status == Pending
    requires Ranking(env(3).rules, env(3).fallback, ContextOf(db.payments[id]), env(3).catalogue) == []
    ensures RunAlone(sha, db, Fetch(tenant, id, Authorize(true)), env, 0)
      == (Written(db, db.payments[id], Processing, DemoWallet, PaymentProcessing, env(2)), Refused(NoRoute))
  {
    hide RunAlone, Written, OutboxIdTaken, Ranking;
    var p := db.payments[id];
    ApprovalIsRoutedIff(sha, db, tenant, id, env);
    var q := Moved(p, Processing, env(2));
    assert ContextOf(q) == ContextOf(p);
    Unroll(sha, Written(db, p, Processing, DemoWallet, PaymentProcessing, env(2)), Deciding(q), env, 3);
  }
}
