/**
 The PostgreSQL store. Every function on `Db` is one committed statement or
 transaction; the class `PgStore` holds the tables and changes them in place,
 and each of its methods is proved to do what the function says.
 */
module Store {
  import opened Wrappers
  import opened Ids
  import opened Status
  import opened Rows
  import StableSort

  datatype Db = Db(
    payments: map<Uuid, Payment>, idempotency: seq<IdempotencyRow>,
    audit: seq<AuditEvent>, outbox: seq<OutboxRecord>, attempts: seq<Attempt>)

  datatype StoreError = NotFound | Conflict | IdempotencyMismatch | VersionConflict | Infra

  datatype TransitionCommand = TransitionCommand(
    tenant: Uuid, payment: Uuid, expectedVersion: Option<int>, next: PaymentStatus)

  // ----- Reads -----

  function GetById(db: Db, tenant: Uuid, id: Uuid): Result<Payment, StoreError> {
    if id in db.payments && db.payments[id].tenant == tenant then Ok(db.payments[id]) else Err(NotFound)
  }

  /** The lookup of `create_idempotent`: by tenant and key, whatever the fingerprint. */
  function FindKey(rows: seq<IdempotencyRow>, tenant: Uuid, key: string): (r: Option<IdempotencyRow>)
    ensures r.Some? ==> r.value in rows && r.value.tenant == tenant && r.value.key == key
    ensures r.None? ==> forall row :: row in rows ==> row.tenant != tenant || row.key != key
  {
    if rows == [] then None
    else if rows[0].tenant == tenant && rows[0].key == key then Some(rows[0])
    else FindKey(rows[1..], tenant, key)
  }

  function GetAttempt(attempts: seq<Attempt>, tenant: Uuid, id: Uuid): (r: Option<Attempt>)
    ensures r.Some? ==> r.value in attempts && r.value.id == id && r.value.tenant == tenant
  {
    if attempts == [] then None
    else if attempts[0].id == id && attempts[0].tenant == tenant then Some(attempts[0])
    else GetAttempt(attempts[1..], tenant, id)
  }

  function AttemptsOf(attempts: seq<Attempt>, tenant: Uuid, payment: Uuid): (r: seq<Attempt>)
    ensures forall a :: a in r <==> a in attempts && a.tenant == tenant && a.payment == payment
  {
    if attempts == [] then []
    else (if attempts[0].tenant == tenant && attempts[0].payment == payment then [attempts[0]] else [])
         + AttemptsOf(attempts[1..], tenant, payment)
  }

  function CreationTime(a: Attempt): int { a.createdAt }

  /** `ORDER BY created_at` */
  function ListAttempts(db: Db, tenant: Uuid, payment: Uuid): seq<Attempt> {
    StableSort.Sort(CreationTime, AttemptsOf(db.attempts, tenant, payment))
  }

  predicate Reconcilable(a: Attempt) {
    a.status in {AAmbiguous, AProcessing}
  }

  /** The latest reconcilable attempt. */
  function ReconcilableAttempt(attempts: seq<Attempt>): (r: Option<Attempt>)
    ensures r.Some? ==> r.value in attempts && Reconcilable(r.value)
    ensures r.None? ==> forall a :: a in attempts ==> !Reconcilable(a)
  {
    if attempts == [] then None
    else
      var last := attempts[|attempts| - 1];
      if Reconcilable(last) then Some(last) else ReconcilableAttempt(attempts[..|attempts| - 1])
  }

  /** The WHERE clause of `list_reconcilable_payments`. */
  predicate ListedReconcilable(db: Db, id: Uuid) {
    id in db.payments && db.payments[id].status == Processing
    && exists a :: a in db.attempts && a.payment == id && Reconcilable(a)
  }

  predicate IsReconcilableRow(db: Db, row: (Uuid, Uuid)) {
    ListedReconcilable(db, row.1) && row.0 == db.payments[row.1].tenant
  }

  /** `SELECT DISTINCT .. LIMIT`: rows the WHERE clause lists, none twice, all of them when the limit leaves room. */
  ghost predicate IsReconcilableList(db: Db, limit: nat, rows: seq<(Uuid, Uuid)>) {
    && |rows| <= limit
    && (forall i :: 0 <= i < |rows| ==> IsReconcilableRow(db, rows[i]))
    && (forall i, j :: 0 <= i < j < |rows| ==> rows[i] != rows[j])
    && (|rows| < limit ==> forall id :: ListedReconcilable(db, id) ==> (db.payments[id].tenant, id) in rows)
  }

  /** The WHERE clause of `list_expirable_payments`. */
  predicate ListedExpirable(db: Db, now: int, id: Uuid) {
    id in db.payments && db.payments[id].expiresAt <= now
    && db.payments[id].status in {Pending, RequiresAction}
  }

  /** The rows that match, in the order in which the database visits them. */
  function DueRows(db: Db, now: int, visit: seq<Uuid>): (r: seq<Payment>)
    ensures forall p :: p in r <==>
      exists id :: id in visit && ListedExpirable(db, now, id) && p == db.payments[id]
  {
    if visit == [] then []
    else (if ListedExpirable(db, now, visit[0]) then [db.payments[visit[0]]] else [])
         + DueRows(db, now, visit[1..])
  }

  function ExpiryTime(p: Payment): int { p.expiresAt }

  /** `ORDER BY expires_at`; rows that expire together stay in visiting order. */
  function ListExpirable(db: Db, now: int, visit: seq<Uuid>): seq<Payment> {
    StableSort.Sort(ExpiryTime, DueRows(db, now, visit))
  }

  lemma ListExpirableRows(db: Db, now: int, visit: seq<Uuid>, p: Payment)
    ensures p in ListExpirable(db, now, visit) <==>
      exists id :: id in visit && ListedExpirable(db, now, id) && p == db.payments[id]
  {
    StableSort.SortMembers(ExpiryTime, DueRows(db, now, visit), p);
  }

  /** With a limit the query lists the earliest: a due row it leaves out expires no earlier than any row it lists. */
  lemma EarliestAreListed(db: Db, now: int, visit: seq<Uuid>, limit: nat, id: Uuid, p: Payment)
    requires id in visit && ListedExpirable(db, now, id)
    requires var rows := ListExpirable(db, now, visit);
      var listed := if |rows| <= limit then rows else rows[..limit];
      p in listed && db.payments[id] !in listed
    ensures p.expiresAt <= db.payments[id].expiresAt
  {
    var rows := ListExpirable(db, now, visit);
    ListExpirableRows(db, now, visit, db.payments[id]);
    StableSort.SortIsStable(ExpiryTime, DueRows(db, now, visit), 0);
    var listed := if |rows| <= limit then rows else rows[..limit];
    assert forall k :: 0 <= k < |listed| ==> listed[k] == rows[k] && listed[k] in listed;
    var i :| 0 <= i < |listed| && rows[i] == p;
    var j :| 0 <= j < |rows| && rows[j] == db.payments[id];
    assert ExpiryTime(rows[i]) <= ExpiryTime(rows[j]);
  }

  // ----- Writes -----

  predicate OutboxIdTaken(db: Db, id: Uuid) {
    exists r :: r in db.outbox && r.id == id
  }

  /** The unique index on (tenant_id, idempotency_key) of payment_requests. */
  predicate KeyTaken(db: Db, tenant: Uuid, key: string) {
    exists id :: id in db.payments && db.payments[id].tenant == tenant && db.payments[id].idempotencyKey == key
  }

  /** The insert half of `create_idempotent`: four rows in one commit, or none. */
  function InsertPayment(db: Db, p: Payment, row: IdempotencyRow, audit: AuditEvent, outbox: OutboxRecord)
    : (Db, Result<Payment, StoreError>)
  {
    if p.id in db.payments || KeyTaken(db, p.tenant, p.idempotencyKey) then (db, Err(Conflict))
    else if exists r :: r in db.idempotency && r.(payment := row.payment) == row then (db, Err(Infra))
    else if OutboxIdTaken(db, outbox.id) then (db, Err(Infra))
    else (Db(db.payments[p.id := p], db.idempotency + [row], db.audit + [audit], db.outbox + [outbox], db.attempts),
        Ok(p))
  }

  /** Lock, version check, state machine, then row, audit and outbox in one commit, or nothing. */
  function TransitionRow(db: Db, cmd: TransitionCommand, now: int, audit: AuditEvent, outbox: OutboxRecord)
    : (Db, Result<Payment, StoreError>)
  {
    if GetById(db, cmd.tenant, cmd.payment).Err? then (db, Err(NotFound))
    else
      var p := db.payments[cmd.payment];
      if cmd.expectedVersion.Some? && p.version != cmd.expectedVersion.value then (db, Err(VersionConflict))
      else if !Legal(p.status, cmd.next) then (db, Err(Conflict))
      else if OutboxIdTaken(db, outbox.id) then (db, Err(Infra))
      else
        var q := p.(status := cmd.next, updatedAt := now, version := p.version + 1);
        (db.(payments := db.payments[cmd.payment := q], audit := db.audit + [audit], outbox := db.outbox + [outbox]),
            Ok(q))
  }

  /** The unique index on (connector_key, provider_reference), the primary key and the foreign key. */
  predicate AttemptRefused(db: Db, a: Attempt) {
    || a.payment !in db.payments
    || exists b :: b in db.attempts &&
         (b.id == a.id
          || (a.providerReference.Some? && b.connectorKey == a.connectorKey
              && b.providerReference == a.providerReference))
  }

  function InsertAttempt(db: Db, a: Attempt): (Db, Result<Attempt, StoreError>) {
    if AttemptRefused(db, a) then (db, Err(Infra)) else (db.(attempts := db.attempts + [a]), Ok(a))
  }

  // ----- The store object -----

  class PgStore {
    var payments: map<Uuid, Payment>
    var idempotency: seq<IdempotencyRow>
    var audit: seq<AuditEvent>
    var outbox: seq<OutboxRecord>
    var attempts: seq<Attempt>

    constructor ()
      ensures State() == Db(map[], [], [], [], [])
    {
      payments, idempotency, audit, outbox, attempts := map[], [], [], [], [];
    }

    function State(): Db
      reads this
    {
      Db(payments, idempotency, audit, outbox, attempts)
    }

    method InsertAudit(event: AuditEvent)
      modifies this`audit
      ensures audit == old(audit) + [event]
    {
      audit := audit + [event];
    }

    method InsertOutbox(record: OutboxRecord)
      modifies this`outbox
      ensures outbox == old(outbox) + [record]
    {
      outbox := outbox + [record];
    }

    method TransitionPayment(cmd: TransitionCommand, now: int, event: AuditEvent, record: OutboxRecord)
      returns (r: Result<Payment, StoreError>)
      modifies this
      ensures (State(), r) == TransitionRow(old(State()), cmd, now, event, record)
    {
      var found := GetById(State(), cmd.tenant, cmd.payment);
      if found.Err? { return Err(NotFound); }
      var payment := new PaymentRequest(found.value);
      if cmd.expectedVersion.Some? && payment.row.version != cmd.expectedVersion.value {
        return Err(VersionConflict);
      }
      var moved := payment.Transition(cmd.next, now);
      if !moved { return Err(Conflict); }
      // Under the row lock the UPDATE finds exactly the version it names.
      assert payments[cmd.payment].version
        == if cmd.expectedVersion.Some? then cmd.expectedVersion.value else payment.row.version - 1;
      if OutboxIdTaken(State(), record.id) { return Err(Infra); }
      payments := payments[cmd.payment := payment.row];
      InsertAudit(event);
      InsertOutbox(record);
      r := Ok(payment.row);
    }

    method InsertPaymentRows(p: Payment, row: IdempotencyRow, event: AuditEvent, record: OutboxRecord)
      returns (r: Result<Payment, StoreError>)
      modifies this
      ensures (State(), r) == InsertPayment(old(State()), p, row, event, record)
    {
      if p.id in payments || KeyTaken(State(), p.tenant, p.idempotencyKey) { return Err(Conflict); }
      if exists x :: x in idempotency && x.(payment := row.payment) == row { return Err(Infra); }
      if OutboxIdTaken(State(), record.id) { return Err(Infra); }
      payments := payments[p.id := p];
      idempotency := idempotency + [row];
      InsertAudit(event);
      InsertOutbox(record);
      r := Ok(p);
    }

    method AddAttempt(a: Attempt) returns (r: Result<Attempt, StoreError>)
      modifies this`attempts
      ensures (State(), r) == InsertAttempt(old(State()), a)
    {
      if AttemptRefused(State(), a) { return Err(Infra); }
      attempts := attempts + [a];
      r := Ok(a);
    }

    method ListExpirablePayments(now: int, visit: seq<Uuid>) returns (due: seq<Payment>)
      ensures due == ListExpirable(State(), now, visit)
    {
      due := [];
      var i := 0;
      while i < |visit|
        invariant 0 <= i <= |visit|
        invariant due + DueRows(State(), now, visit[i..]) == DueRows(State(), now, visit)
      {
        assert visit[i..][1..] == visit[i + 1..];
        if ListedExpirable(State(), now, visit[i]) { due := due + [payments[visit[i]]]; }
        i := i + 1;
      }
      assert due == DueRows(State(), now, visit) by { assert visit[i..] == [] && due + [] == due; }
      due := StableSort.Sort(ExpiryTime, due);
    }

    method ListReconcilablePayments(limit: nat) returns (rows: seq<(Uuid, Uuid)>)
      ensures IsReconcilableList(State(), limit, rows)
    {
      var rest := set id | id in payments && ListedReconcilable(State(), id);
      rows := [];
      while rest != {} && |rows| < limit
        invariant |rows| <= limit
        invariant forall i :: 0 <= i < |rows| ==> IsReconcilableRow(State(), rows[i]) && rows[i].1 !in rest
        invariant forall i, j :: 0 <= i < j < |rows| ==> rows[i] != rows[j]
        invariant forall id :: ListedReconcilable(State(), id) ==> id in rest || (payments[id].tenant, id) in rows
        invariant forall id :: id in rest ==> ListedReconcilable(State(), id)
        decreases rest
      {
        var id :| id in rest;
        rows, rest := rows + [(payments[id].tenant, id)], rest - {id};
      }
    }
  }

  /** The query lists exactly the Processing payments for which `reconcilable_attempt` finds an attempt. */
  lemma ReconcilableSetIsExact(db: Db, id: Uuid)
    requires forall a :: a in db.attempts ==>
      a.payment in db.payments && a.tenant == db.payments[a.payment].tenant
    ensures ListedReconcilable(db, id) <==>
      id in db.payments && db.payments[id].status == Processing
      && ReconcilableAttempt(ListAttempts(db, db.payments[id].tenant, id)).Some?
  {
    if id in db.payments {
      var own := AttemptsOf(db.attempts, db.payments[id].tenant, id);
      forall a ensures a in ListAttempts(db, db.payments[id].tenant, id) <==> a in own {
        StableSort.SortMembers(CreationTime, own, a);
      }
      if ListedReconcilable(db, id) {
        var a :| a in db.attempts && a.payment == id && Reconcilable(a);
        assert a in own;
      }
    }
  }
}
