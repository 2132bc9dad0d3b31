/** What reconciliation and the admin's decision achieve, call by call and over a whole reconcile pass. */
module Reconciling {
  import opened Wrappers
  import opened Ids
  import opened Status
  import opened Rows
  import opened Store
  import opened Machine
  import opened Ledger
  import opened System
  import opened Theorems
  import opened Outcomes
  import opened Service
  import AuthorizeTheorems
  import StableSort

  // ----- Reconcile and resolve -----

  /** A payment that is not Processing is only read by reconcile, expiring it when due. */
  lemma ReconcileReadsOthers(sha: string -> string, db: Db, tenant: Uuid, id: Uuid, env: nat -> Input)
    requires Exists(db, tenant, id) && db.payments[id].status != Processing
    ensures RunAlone(sha, db, Fetch(tenant, id, Reconcile), env, 0)
        == RunAlone(sha, db, Fetch(tenant, id, Show), env, 0)
  {
    hide RunAlone, ListAttempts, ReconcilableAttempt, ApplyStatus;
    var p := db.payments[id];
    Unroll(sha, db, Fetch(tenant, id, Reconcile), env, 0);
    Unroll(sha, db, Fetch(tenant, id, Show), env, 0);
    if !env(0).fault {
      Unroll(sha, db, Fetched(p, Reconcile), env, 1);
      Unroll(sha, db, Fetched(p, Show), env, 1);
      var (db1, pc1) := StepFetched(db, p, Show, env(1));
      if pc1.Have? {
        ReadKeepsAway(db, p, env(1));
        Unroll(sha, db1, Have(pc1.held, Reconcile), env, 2);
        Unroll(sha, db1, pc1, env, 2);
      }
    }
  }

  lemma ReadKeepsAway(db: Db, p: Payment, x: Input)
    requires p.status != Processing
    ensures var (db', pc') := StepFetched(db, p, Show, x);
      StepFetched(db, p, Reconcile, x) == (db', if pc'.Have? then Have(pc'.held, Reconcile) else pc')
    ensures var pc' := StepFetched(db, p, Show, x).1;
      pc'.Have? ==> pc'.goal == Show && pc'.held.status != Processing
  {
    ExpiryOnlyBeforeProcessing(p, x.now);
  }

  /** Reading never expires a payment that has been processed. */
  lemma ReadLeavesProcessed(db: Db, p: Payment, goal: Goal, x: Input)
    requires AfterProcessing(p.status) && !goal.Cancel? && !goal.Refund?
    ensures StepFetched(db, p, goal, x) == (db, Have(p, goal))
  {
    ExpiryOnlyBeforeProcessing(p, x.now);
  }

  /** The attempt reconcile would poll, if it has a reference to poll with. */
  function Pollable(db: Db, p: Payment): Option<Attempt> {
    match ReconcilableAttempt(ListAttempts(db, p.tenant, p.id))
    case None => None
    case Some(a) => if a.providerReference.None? then None else Some(a)
  }

  /** What a poll makes of each answer to a payment in Processing. */
  predicate PollWritten(db: Db, db': Db, o: Outcome, p: Payment, x: Input) {
    match x.fetched
    case Fetches(AAuthorized) => WrotePoll(db, db', o, p, Authorized, PaymentAuthorized, x)
    case Fetches(ASettled) => WrotePoll(db, db', o, p, Settled, PaymentSettled, x)
    case Fetches(AFailed) => WrotePoll(db, db', o, p, Failed, PaymentFailed, x)
    case Fetches(AProcessing) | Fetches(AAmbiguous) => o == OkPayment(p) && db' == db
    case Fetches(_) => o == Refused(StoreSays(Conflict)) && db' == db
    case NoConnector | FetchError => o == Refused(ConnectorSays) && db' == db
  }

  predicate WrotePoll(db: Db, db': Db, o: Outcome, p: Payment, next: PaymentStatus, event: EventType, x: Input) {
    o == OkPayment(Moved(p, next, x)) && db' == Written(db, p, next, ReconcilerWorker, event, x)
  }

  lemma PollingIff(db: Db, p: Payment, x: Input)
    requires !x.fault && !OutboxIdTaken(db, x.eventId) && p.id in db.payments && db.payments[p.id] == p
    requires p.status == Processing
    ensures var (db', pc') := StepPolling(db, p, x); pc'.Done? && PollWritten(db, db', pc'.outcome, p, x)
  {
    hide ApplyStatus, Written, OutboxIdTaken;
    if x.fetched.Fetches? {
      var next := IntoPaymentStatus(x.fetched.status);
      ApplySucceedsIff(db, p, next, ReconcilerWorker, EventFor(next), x);
    }
  }

  /** Undisturbed polling of a Processing payment, case by case. */
  lemma ReconcileIff(sha: string -> string, db: Db, tenant: Uuid, id: Uuid, env: nat -> Input)
    requires Undisturbed(db, env) && Exists(db, tenant, id) && db.payments[id].status == Processing
    ensures var (db', o) := RunAlone(sha, db, Fetch(tenant, id, Reconcile), env, 0);
      if Pollable(db, db.payments[id]).None? then o == Refused(ConnectorSays) && db' == db
      else PollWritten(db, db', o, db.payments[id], env(3))
  {
    hide RunAlone, ListAttempts, ReconcilableAttempt, StepPolling, OutboxIdTaken, PollWritten;
    var p := db.payments[id];
    Unroll(sha, db, Fetch(tenant, id, Reconcile), env, 0);
    Unroll(sha, db, Fetched(p, Reconcile), env, 1);
    ReadLeavesProcessed(db, p, Reconcile, env(1));
    Unroll(sha, db, Have(p, Reconcile), env, 2);
    if Pollable(db, p).Some? {
      Unroll(sha, db, Polling(p, Pollable(db, p).value), env, 3);
      PollingIff(db, p, env(3));
    }
  }

  /** An attempt of the payment whose outcome is open, or still to come. */
  predicate CanBePolled(db: Db, p: Payment, a: Attempt) {
    a in db.attempts && a.tenant == p.tenant && a.payment == p.id && a.status in {AAmbiguous, AProcessing}
  }

  /** What is polled is the latest of those attempts; in a consistent database there is one as soon as any exists. */
  lemma LatestIsPolled(sha: string -> string, db: Db, p: Payment)
    requires Inv(sha, db)
    ensures Pollable(db, p).None? <==> forall a :: !CanBePolled(db, p, a)
    ensures Pollable(db, p).Some? ==>
      && CanBePolled(db, p, Pollable(db, p).value)
      && forall a :: CanBePolled(db, p, a) ==> a.createdAt <= Pollable(db, p).value.createdAt
  {
    hide Inv;
    var own, listed := AttemptsOf(db.attempts, p.tenant, p.id), ListAttempts(db, p.tenant, p.id);
    StableSort.SortIsStable(CreationTime, own, 0);
    LastIsLatest(listed);
    forall a ensures CanBePolled(db, p, a) <==> a in listed && a.status in {AAmbiguous, AProcessing} {
      StableSort.SortMembers(CreationTime, own, a);
    }
    forall a | CanBePolled(db, p, a) ensures Pollable(db, p).Some? {
      AuthorizeTheorems.OpenAttemptIsPolled(sha, db, p, a);
    }
  }

  lemma {:induction false} LastIsLatest(attempts: seq<Attempt>)
    requires StableSort.SortedBy(CreationTime, attempts)
    ensures ReconcilableAttempt(attempts).None?
      <==> forall a :: a in attempts ==> a.status !in {AAmbiguous, AProcessing}
    ensures ReconcilableAttempt(attempts).Some? ==>
      var found := ReconcilableAttempt(attempts).value;
      && found in attempts && found.status in {AAmbiguous, AProcessing}
      && forall a :: a in attempts && a.status in {AAmbiguous, AProcessing} ==> a.createdAt <= found.createdAt
  {
    if attempts != [] {
      var n := |attempts| - 1;
      assert forall a :: a in attempts <==> a in attempts[..n] || a == attempts[n];
      LastIsLatest(attempts[..n]);
      assert forall a :: a in attempts ==> CreationTime(a) <= CreationTime(attempts[n]);
    }
  }

  /** No outbox id but this one is new. */
  ghost predicate OutboxGrowsBy(db: Db, db': Db, id: Uuid) {
    forall u :: OutboxIdTaken(db', u) ==> OutboxIdTaken(db, u) || u == id
  }

  lemma ApplyGrowsOutbox(db: Db, held: Payment, next: PaymentStatus, actor: Actor, event: EventType, x: Input)
    ensures OutboxGrowsBy(db, ApplyStatus(db, held, next, actor, event, x).0, x.eventId)
  {
  }

  function Decided(db: Db, p: Payment, approves: bool, admin: string, x: Input): Db {
    if approves then Written(db, p, Settled, Admin(admin), PaymentSettled, x)
    else Written(db, p, Failed, Admin(admin), PaymentFailed, x)
  }

  /**
   The admin's decision on a manual attempt: an approval settles a payment that is Processing, Authorized or already
   Settled, a rejection fails one that is Processing, Authorized or already Failed; on any other nothing changes.
   */
  lemma ResolveIff(sha: string -> string, db: Db, tenant: Uuid, attempt: Uuid, approves: bool, admin: string,
      env: nat -> Input)
    requires Inv(sha, db) && Undisturbed(db, env)
    ensures var (db', o) := RunAlone(sha, db, FindAttempt(tenant, attempt, approves, admin), env, 0);
      match GetAttempt(db.attempts, tenant, attempt)
      case None => o == Refused(StoreSays(NotFound)) && db' == db
      case Some(a) =>
        if a.providerReference.None? || !env(0).resolverOk then o == Refused(ConnectorSays) && db' == db
        else
          var next := if approves then Settled else Failed;
          && a.payment in db.payments
          && if db.payments[a.payment].status in {Processing, Authorized, next}
             then o == OkPayment(Moved(db.payments[a.payment], next, env(3)))
                  && db' == Decided(db, db.payments[a.payment], approves, admin, env(3))
             else o == Refused(StoreSays(Conflict)) && db' == db
  {
    hide Inv, RunAlone, GetAttempt, Undisturbed;
    NoFaults(db, env);
    Unroll(sha, db, FindAttempt(tenant, attempt, approves, admin), env, 0);
    var found := GetAttempt(db.attempts, tenant, attempt);
    if found.Some? && found.value.providerReference.Some? && env(0).resolverOk {
      DecidedCall(sha, db, found.value, approves, admin, env);
    }
  }

  lemma DecidedCall(sha: string -> string, db: Db, a: Attempt, approves: bool, admin: string, env: nat -> Input)
    requires Inv(sha, db) && Undisturbed(db, env) && a in db.attempts
    ensures var (db', o) := RunAlone(sha, db, Fetch(a.tenant, a.payment, Resolve(approves, admin)), env, 1);
      var next := if approves then Settled else Failed;
      && a.payment in db.payments
      && if db.payments[a.payment].status in {Processing, Authorized, next}
         then o == OkPayment(Moved(db.payments[a.payment], next, env(3)))
              && db' == Decided(db, db.payments[a.payment], approves, admin, env(3))
         else o == Refused(StoreSays(Conflict)) && db' == db
  {
    hide Inv, RunAlone, StepHave, StepFetched, Visited, AfterProcessing, OutboxIdTaken;
    AttemptedPayment(sha, db, a);
    var p, goal := db.payments[a.payment], Resolve(approves, admin);
    Unroll(sha, db, Fetch(a.tenant, a.payment, goal), env, 1);
    Unroll(sha, db, Fetched(p, goal), env, 2);
    ReadLeavesProcessed(db, p, goal, env(2));
    Unroll(sha, db, Have(p, goal), env, 3);
    DecisionIff(db, p, approves, admin, env(3));
  }

  lemma DecisionIff(db: Db, p: Payment, approves: bool, admin: string, x: Input)
    requires !x.fault && !OutboxIdTaken(db, x.eventId) && p.id in db.payments && db.payments[p.id] == p
    requires Visited(p.status) && AfterProcessing(p.status)
    ensures var (db', pc') := StepHave(db, p, Resolve(approves, admin), x);
      var next := if approves then Settled else Failed;
      pc'.Done? &&
      if p.status in {Processing, Authorized, next}
      then pc'.outcome == OkPayment(Moved(p, next, x)) && db' == Decided(db, p, approves, admin, x)
      else pc'.outcome == Refused(StoreSays(Conflict)) && db' == db
  {
    if approves {
      ApplySucceedsIff(db, p, Settled, Admin(admin), PaymentSettled, x);
    } else {
      ApplySucceedsIff(db, p, Failed, Admin(admin), PaymentFailed, x);
    }
    hide ApplyStatus;
  }

  lemma AttemptedPayment(sha: string -> string, db: Db, a: Attempt)
    requires Inv(sha, db) && a in db.attempts
    ensures Exists(db, a.tenant, a.payment)
    ensures Visited(db.payments[a.payment].status) && AfterProcessing(db.payments[a.payment].status)
  {
    hide IdempotencyInv, OutboxInv, Visited, AfterProcessing;
    assert AttemptOk(db, a);
    AttemptMeansProcessed(db, a);
    RowIsKnown(db, a.payment);
    CurrentVisited(sha, db, db.payments[a.payment]);
    assert PaymentOk(db, a.payment);
  }

  // ----- A reconcile pass -----

  /** Whatever the connectors answer, a pass over any list keeps the invariant and only adds rows. */
  lemma {:induction false} ReconcilePassKeeps(sha: string -> string, db: Db, rows: seq<(Uuid, Uuid)>,
        envs: nat -> nat -> Input, i: nat)
    requires Inv(sha, db) && i <= |rows|
    ensures var (db', n) := ReconcileEach(sha, db, rows, envs, i);
      Inv(sha, db') && Extends(db, db') && n <= |rows| - i
    decreases |rows| - i
  {
    hide Inv, Extends, RunAlone, OutcomeInv;
    if i == |rows| {
      ExtendsItself(db);
    } else {
      var start := Fetch(rows[i].0, rows[i].1, Reconcile);
      var db1 := RunAlone(sha, db, start, envs(i), 0).0;
      RunAloneKeeps(sha, db, start, envs(i), 0);
      ReconcilePassKeeps(sha, db1, rows, envs, i + 1);
      ExtendsTransitive(db, db1, ReconcileEach(sha, db1, rows, envs, i + 1).0);
    }
  }

  /** What polling makes of a Processing payment. */
  function Reconciled(x: Input): PaymentStatus {
    match x.fetched
    case Fetches(AAuthorized) => Authorized
    case Fetches(ASettled) => Settled
    case Fetches(AFailed) => Failed
    case _ => Processing
  }

  /** The answers that do not make the call fail. */
  predicate Answers(x: Input) {
    x.fetched.Fetches? && x.fetched.status in {AProcessing, AAmbiguous, AAuthorized, ASettled, AFailed}
  }

  function AnswersFrom(rows: seq<(Uuid, Uuid)>, envs: nat -> nat -> Input, i: nat): nat
    requires i <= |rows|
    decreases |rows| - i
  {
    if i == |rows| then 0 else (if Answers(envs(i)(3)) then 1 else 0) + AnswersFrom(rows, envs, i + 1)
  }

  /** What an undisturbed pass over the rows from `i` on makes of the database. */
  ghost predicate PassAchieves(db: Db, db': Db, rows: seq<(Uuid, Uuid)>, envs: nat -> nat -> Input, i: nat)
    requires i <= |rows|
  {
    && db'.attempts == db.attempts && db'.payments.Keys == db.payments.Keys
    && (forall j :: i <= j < |rows| ==>
          rows[j].1 in db'.payments && db'.payments[rows[j].1].status == Reconciled(envs(j)(3)))
    && (forall id :: id in db.payments && (forall j :: i <= j < |rows| ==> rows[j].1 != id)
          ==> db'.payments[id] == db.payments[id])
  }

  /** One listed payment. */
  lemma RowIsReconciled(sha: string -> string, db: Db, row: (Uuid, Uuid), env: nat -> Input)
    requires Inv(sha, db) && IsReconcilableRow(db, row)
    requires forall k :: !env(k).fault && !OutboxIdTaken(db, env(k).eventId)
    ensures var (db', o) := RunAlone(sha, db, Fetch(row.0, row.1, Reconcile), env, 0);
      && db'.attempts == db.attempts && db'.payments.Keys == db.payments.Keys
      && row.1 in db'.payments && db'.payments[row.1].status == Reconciled(env(3))
      && (forall id :: id in db.payments && id != row.1 ==> db'.payments[id] == db.payments[id])
      && OutboxGrowsBy(db, db', env(3).eventId)
      && (o.Refused? <==> !Answers(env(3)))
  {
    hide Inv, RunAlone, ListAttempts, ReconcilableAttempt, OutboxIdTaken, PollWritten, OutboxGrowsBy;
    hide Reconciled, Answers;
    ListedIsPollable(sha, db, row);
    ReconcileIff(sha, db, row.0, row.1, env);
    var (db', o) := RunAlone(sha, db, Fetch(row.0, row.1, Reconcile), env, 0);
    PollChanges(db, db', o, db.payments[row.1], env(3));
  }

  lemma PollChanges(db: Db, db': Db, o: Outcome, p: Payment, x: Input)
    requires PollWritten(db, db', o, p, x) && p.id in db.payments && db.payments[p.id] == p && p.status == Processing
    ensures db'.attempts == db.attempts && db'.payments.Keys == db.payments.Keys
    ensures db'.payments[p.id].status == Reconciled(x)
    ensures forall id :: id in db.payments && id != p.id ==> db'.payments[id] == db.payments[id]
    ensures OutboxGrowsBy(db, db', x.eventId) && (o.Refused? <==> !Answers(x))
  {
  }

  lemma OutboxGrowsNot(db: Db, id: Uuid)
    ensures OutboxGrowsBy(db, db, id)
  {
  }

  lemma ListedIsPollable(sha: string -> string, db: Db, row: (Uuid, Uuid))
    requires Inv(sha, db) && IsReconcilableRow(db, row)
    ensures Exists(db, row.0, row.1) && db.payments[row.1].status == Processing
    ensures Pollable(db, db.payments[row.1]).Some?
  {
    hide IdempotencyInv, OutboxInv, ListAttempts;
    assert PaymentOk(db, row.1);
    var a :| a in db.attempts && a.payment == row.1 && Reconcilable(a);
    assert AttemptOk(db, a);
    AuthorizeTheorems.OpenAttemptIsPolled(sha, db, db.payments[row.1], a);
  }

  /**
   An undisturbed reconcile pass: every listed payment whose connector answers Authorized, Settled or Failed gets that
   status, every other listed one stays in Processing, no other payment changes, and the count is that of the answers
   that a Processing payment can take.
   */
  lemma {:induction false} ReconcilePassIff(sha: string -> string, db: Db, rows: seq<(Uuid, Uuid)>,
                                            envs: nat -> nat -> Input, i: nat)
    requires Inv(sha, db) && i <= |rows|
    requires forall j :: i <= j < |rows| ==> IsReconcilableRow(db, rows[j])
    requires forall j, k :: i <= j < k < |rows| ==> rows[j].1 != rows[k].1
    requires forall j, k :: i <= j < |rows| ==> !envs(j)(k).fault && !OutboxIdTaken(db, envs(j)(k).eventId)
    requires forall j, k, m :: i <= j < k < |rows| ==> envs(j)(3).eventId != envs(k)(m).eventId
    ensures var (db', n) := ReconcileEach(sha, db, rows, envs, i);
      PassAchieves(db, db', rows, envs, i) && n == AnswersFrom(rows, envs, i)
    decreases |rows| - i
  {
    hide Inv, RunAlone, OutboxIdTaken, OutboxGrowsBy, Reconciled, Answers, Extends, OutcomeInv, PassAchieves;
    if i == |rows| {
      NothingLeft(db, rows, envs);
    } else {
      var start := Fetch(rows[i].0, rows[i].1, Reconcile);
      var db1 := RunAlone(sha, db, start, envs(i), 0).0;
      RowIsReconciled(sha, db, rows[i], envs(i));
      RunAloneKeeps(sha, db, start, envs(i), 0);
      forall j | i + 1 <= j < |rows| ensures IsReconcilableRow(db1, rows[j]) {
        StillListed(db, db1, rows[j]);
      }
      forall j, k | i + 1 <= j < |rows| ensures !OutboxIdTaken(db1, envs(j)(k).eventId) {
        StillFree(db, db1, envs(i)(3).eventId, envs(j)(k).eventId);
      }
      ReconcilePassIff(sha, db1, rows, envs, i + 1);
      PassStep(db, db1, ReconcileEach(sha, db1, rows, envs, i + 1).0, rows, envs, i);
    }
  }

  lemma NothingLeft(db: Db, rows: seq<(Uuid, Uuid)>, envs: nat -> nat -> Input)
    ensures PassAchieves(db, db, rows, envs, |rows|)
  {
  }

  lemma PassStep(db: Db, db1: Db, db': Db, rows: seq<(Uuid, Uuid)>, envs: nat -> nat -> Input, i: nat)
    requires i < |rows| && PassAchieves(db1, db', rows, envs, i + 1)
    requires db1.attempts == db.attempts && db1.payments.Keys == db.payments.Keys
    requires rows[i].1 in db1.payments && db1.payments[rows[i].1].status == Reconciled(envs(i)(3))
    requires forall id :: id in db.payments && id != rows[i].1 ==> db1.payments[id] == db.payments[id]
    requires forall j :: i < j < |rows| ==> rows[j].1 != rows[i].1
    ensures PassAchieves(db, db', rows, envs, i)
  {
    hide Reconciled;
  }

  /** So for the list that the query gives, on which the worker's pass runs. */
  lemma StalePassIff(sha: string -> string, db: Db, limit: nat, rows: seq<(Uuid, Uuid)>, envs: nat -> nat -> Input)
    requires Inv(sha, db) && IsReconcilableList(db, limit, rows)
    requires forall j, k :: 0 <= j < |rows| ==> !envs(j)(k).fault && !OutboxIdTaken(db, envs(j)(k).eventId)
    requires forall j, k, m :: 0 <= j < k < |rows| ==> envs(j)(3).eventId != envs(k)(m).eventId
    ensures var (db', n) := ReconcileEach(sha, db, rows, envs, 0);
      PassAchieves(db, db', rows, envs, 0) && n == AnswersFrom(rows, envs, 0)
  {
    hide Inv, ReconcileEach, ListedReconcilable;
    forall j, k | 0 <= j < k < |rows| ensures rows[j].1 != rows[k].1 {
      assert IsReconcilableRow(db, rows[j]) && IsReconcilableRow(db, rows[k]) && rows[j] != rows[k];
    }
    ReconcilePassIff(sha, db, rows, envs, 0);
  }

  lemma StillListed(db: Db, db': Db, row: (Uuid, Uuid))
    requires IsReconcilableRow(db, row) && db'.attempts == db.attempts
    requires row.1 in db'.payments && db'.payments[row.1] == db.payments[row.1]
    ensures IsReconcilableRow(db', row)
  {
  }

  lemma StillFree(db: Db, db': Db, taken: Uuid, id: Uuid)
    requires OutboxGrowsBy(db, db', taken) && id != taken && !OutboxIdTaken(db, id)
    ensures !OutboxIdTaken(db', id)
  {
  }
}
