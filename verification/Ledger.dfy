/**
 What every committed database satisfies: the payment rows, the audit log and
 the outbox tell one and the same story, attempts hang on payments that were
 really processed, and payments and idempotency rows are in bijection.
 */
module Ledger {
  import opened Ids
  import opened Status
  import opened Rows
  import opened Store
  import opened Fingerprint

  // ----- The rows of one payment -----

  function AuditTrail(audit: seq<AuditEvent>, id: Uuid): seq<AuditEvent> {
    if audit == [] then []
    else
      var last := audit[|audit| - 1];
      AuditTrail(audit[..|audit| - 1], id) + if last.payment == id then [last] else []
  }

  function OutboxTrail(outbox: seq<OutboxRecord>, id: Uuid): seq<OutboxRecord> {
    if outbox == [] then []
    else
      var last := outbox[|outbox| - 1];
      OutboxTrail(outbox[..|outbox| - 1], id) + if last.payment == id then [last] else []
  }

  lemma TrailAppend(audit: seq<AuditEvent>, a: AuditEvent, outbox: seq<OutboxRecord>, r: OutboxRecord, id: Uuid)
    ensures a.payment == id ==> AuditTrail(audit + [a], id) == AuditTrail(audit, id) + [a]
    ensures a.payment != id ==> AuditTrail(audit + [a], id) == AuditTrail(audit, id)
    ensures r.payment == id ==> OutboxTrail(outbox + [r], id) == OutboxTrail(outbox, id) + [r]
    ensures r.payment != id ==> OutboxTrail(outbox + [r], id) == OutboxTrail(outbox, id)
  {
    assert (audit + [a])[..|audit|] == audit;
    assert (outbox + [r])[..|outbox|] == outbox;
  }

  lemma {:induction false} NoTrail(audit: seq<AuditEvent>, outbox: seq<OutboxRecord>, id: Uuid)
    requires forall a :: a in audit ==> a.payment != id
    requires forall r :: r in outbox ==> r.payment != id
    ensures AuditTrail(audit, id) == [] && OutboxTrail(outbox, id) == []
    decreases |audit| + |outbox|
  {
    if audit != [] { NoTrail(audit[..|audit| - 1], outbox, id); }
    if outbox != [] { NoTrail(audit, outbox[..|outbox| - 1], id); }
  }

  // ----- The audit chain -----

  /** Row `i` starts where row `i - 1` ended, and stutters or follows an edge. */
  predicate Link(t: seq<AuditEvent>, i: int)
    requires 0 < i < |t|
  {
    t[i].meta.ChangeMeta? && t[i].meta.from == StatusAfter(t[i - 1]) && Legal(t[i].meta.from, t[i].meta.to)
  }

  /** Starts with the creation and is unbroken. */
  predicate Chain(t: seq<AuditEvent>) {
    t != [] && t[0].meta.CreatedMeta? && forall i :: 0 < i < |t| ==> Link(t, i)
  }

  predicate ReachedProcessing(t: seq<AuditEvent>) {
    exists i :: 0 <= i < |t| && StatusAfter(t[i]) == Processing
  }

  /** Outbox row `i` announces the status that audit row `i` records, under that status's event name. */
  predicate Announces(r: OutboxRecord, a: AuditEvent, first: bool, p: Payment) {
    && r.status == StatusAfter(a)
    && r.eventType == (if first then PaymentCreated else EventFor(r.status))
    && a.eventType == r.eventType && a.tenant == p.tenant && a.occurredAt == r.createdAt
    && (first ==> a.meta == CreatedMeta(p.orderId, p.amount, p.currency))
    && r.tenant == p.tenant && r.merchant == p.merchant
    && r.orderId == p.orderId && r.amount == p.amount && r.currency == p.currency
  }

  /** Which statuses an audit row may record for each kind of actor. */
  predicate ActorMay(actor: Actor, to: PaymentStatus) {
    match actor
    case SystemExpiry => to == Expired
    case DemoWallet => to in {Processing, Failed}
    case Merchant(_) => to in {Pending, Cancelled, Refunded}
    case Connector(_) => to in {Processing, Authorized, Settled, Failed}
    case ReconcilerWorker => to in {Authorized, Settled, Failed}
    case Admin(_) => to in {Settled, Failed}
  }

  predicate RowFits(p: Payment, t: seq<AuditEvent>, o: seq<OutboxRecord>, i: int)
    requires 0 <= i < |t| == |o|
  {
    Visited(StatusAfter(t[i])) && ActorMay(t[i].actor, StatusAfter(t[i])) && Announces(o[i], t[i], i == 0, p)
  }

  /** What creation guarantees, and nothing changes later. */
  predicate WellMade(p: Payment) {
    |p.currency| == 3 && p.amount > 0 && p.methods != [] && p.expiresAt >= p.createdAt + 30 * SECOND
  }

  ghost predicate PaymentInv(p: Payment, t: seq<AuditEvent>, o: seq<OutboxRecord>) {
    && |t| == |o| == p.version
    && Chain(t)
    && StatusAfter(t[|t| - 1]) == p.status
    && (forall i :: 0 <= i < |t| ==> RowFits(p, t, o, i))
    && WellMade(p)
  }

  ghost predicate PaymentOk(db: Db, id: Uuid)
    requires id in db.payments
  {
    db.payments[id].id == id && PaymentInv(db.payments[id], AuditTrail(db.audit, id), OutboxTrail(db.outbox, id))
  }

  ghost predicate LedgerInv(db: Db) {
    && (forall id :: id in db.payments ==> PaymentOk(db, id))
    && (forall a :: a in db.audit ==> a.payment in db.payments)
    && (forall r :: r in db.outbox ==> r.payment in db.payments)
  }

  /** The primary key of outbox_events. */
  ghost predicate OutboxInv(outbox: seq<OutboxRecord>) {
    forall i, j :: 0 <= i < j < |outbox| ==> outbox[i].id != outbox[j].id
  }

  ghost predicate AttemptOk(db: Db, a: Attempt) {
    && a.payment in db.payments
    && a.tenant == db.payments[a.payment].tenant
    && ReachedProcessing(AuditTrail(db.audit, a.payment))
    && (Reconcilable(a) ==> a.providerReference.Some?)
  }

  ghost predicate AttemptsInv(db: Db) {
    forall a :: a in db.attempts ==> AttemptOk(db, a)
  }

  ghost predicate RowMatches(sha: string -> string, db: Db, r: IdempotencyRow) {
    && r.payment in db.payments
    && db.payments[r.payment].tenant == r.tenant
    && db.payments[r.payment].idempotencyKey == r.key
    && r.fingerprint == PaymentFingerprint(sha, db.payments[r.payment])
  }

  predicate SameKey(db: Db, id: Uuid, id': Uuid)
    requires id in db.payments && id' in db.payments
  {
    && db.payments[id].tenant == db.payments[id'].tenant
    && db.payments[id].idempotencyKey == db.payments[id'].idempotencyKey
  }

  ghost predicate RowsMatch(sha: string -> string, db: Db) {
    forall r :: r in db.idempotency ==> RowMatches(sha, db, r)
  }

  ghost predicate RowsDistinct(rows: seq<IdempotencyRow>) {
    forall i, j :: 0 <= i < j < |rows| ==> rows[i].payment != rows[j].payment
  }

  ghost predicate HasRow(rows: seq<IdempotencyRow>, id: Uuid) {
    exists i :: 0 <= i < |rows| && rows[i].payment == id
  }

  ghost predicate KeysDistinct(db: Db) {
    forall id, id' :: id in db.payments && id' in db.payments && SameKey(db, id, id') ==> id == id'
  }

  /** One idempotency row per payment, one payment per row, and one payment per tenant and key. */
  ghost predicate IdempotencyInv(sha: string -> string, db: Db) {
    && RowsMatch(sha, db)
    && RowsDistinct(db.idempotency)
    && (forall id :: id in db.payments ==> HasRow(db.idempotency, id))
    && KeysDistinct(db)
  }

  ghost predicate Inv(sha: string -> string, db: Db) {
    LedgerInv(db) && OutboxInv(db.outbox) && AttemptsInv(db) && IdempotencyInv(sha, db)
  }

  // ----- How a database may grow -----

  ghost predicate SamePayment(db: Db, db': Db, id: Uuid)
    requires id in db.payments
  {
    && id in db'.payments
    && SameFacts(db.payments[id], db'.payments[id])
    && AuditTrail(db.audit, id) <= AuditTrail(db'.audit, id)
  }

  /** Rows are only added, and a payment keeps its facts and its past. */
  ghost predicate Extends(db: Db, db': Db) {
    && (forall id :: id in db.payments ==> SamePayment(db, db', id))
    && db.audit <= db'.audit && db.outbox <= db'.outbox
    && db.attempts <= db'.attempts && db.idempotency <= db'.idempotency
  }

  lemma ExtendsTransitive(a: Db, b: Db, c: Db)
    requires Extends(a, b) && Extends(b, c)
    ensures Extends(a, c)
  {
    forall id | id in a.payments ensures SamePayment(a, c, id) {
      assert SamePayment(a, b, id) && SamePayment(b, c, id);
    }
  }

  /** A snapshot the store handed out at some time: its version is in the payment's past, with its status. */
  ghost predicate Known(db: Db, p: Payment) {
    && p.id in db.payments
    && SameFacts(p, db.payments[p.id])
    && 1 <= p.version <= |AuditTrail(db.audit, p.id)|
    && StatusAfter(AuditTrail(db.audit, p.id)[p.version - 1]) == p.status
  }

  lemma KnownStays(db: Db, db': Db, p: Payment)
    requires Known(db, p) && Extends(db, db')
    ensures Known(db', p)
  {
    assert SamePayment(db, db', p.id);
  }

  lemma RowIsKnown(db: Db, id: Uuid)
    requires LedgerInv(db) && id in db.payments
    ensures Known(db, db.payments[id])
  {
    assert PaymentOk(db, id);
  }

  /** A snapshot whose version is still current has the current status. */
  lemma CurrentSnapshot(db: Db, held: Payment)
    requires LedgerInv(db) && Known(db, held) && db.payments[held.id].version == held.version
    ensures db.payments[held.id].status == held.status
  {
    hide Chain, RowFits, AuditTrail, OutboxTrail, StatusAfter;
    assert PaymentOk(db, held.id);
  }

  // ----- The three writes keep it -----

  /** `db'` is `db` after one committed status change made from the snapshot `held`. */
  ghost predicate Transitioned(db: Db, db': Db, held: Payment, a: AuditEvent, r: OutboxRecord, q: Payment) {
    && Known(db, held)
    && db.payments[held.id].version == held.version
    && a.payment == held.id && r.payment == held.id
    && a.meta == ChangeMeta(held.status, q.status) && Legal(held.status, q.status) && Visited(q.status)
    && ActorMay(a.actor, q.status)
    && Announces(r, a, false, held)
    && SameFacts(db.payments[held.id], q) && q.version == held.version + 1
    && db' == db.(payments := db.payments[held.id := q], audit := db.audit + [a], outbox := db.outbox + [r])
  }

  lemma TransitionKeepsPayment(db: Db, db': Db, held: Payment, a: AuditEvent, r: OutboxRecord, q: Payment, id: Uuid)
    requires LedgerInv(db) && Transitioned(db, db', held, a, r, q) && id in db.payments
    ensures PaymentOk(db', id) && SamePayment(db, db', id)
  {
    TrailAppend(db.audit, a, db.outbox, r, id);
    assert PaymentOk(db, id);
    if id == held.id {
      CurrentSnapshot(db, held);
      ChainExtends(AuditTrail(db.audit, id), a, OutboxTrail(db.outbox, id), r, db.payments[id], q);
      assert db'.payments[id] == q;
    } else {
      assert db'.payments[id] == db.payments[id];
    }
  }

  lemma TransitionKeepsLedger(db: Db, db': Db, held: Payment, a: AuditEvent, r: OutboxRecord, q: Payment)
    requires LedgerInv(db) && Transitioned(db, db', held, a, r, q)
    ensures LedgerInv(db') && Extends(db, db') && Known(db', q)
  {
    forall id | id in db.payments ensures PaymentOk(db', id) && SamePayment(db, db', id) {
      TransitionKeepsPayment(db, db', held, a, r, q, id);
    }
    LedgerAssembled(db, db', a, r);
    assert q == db'.payments[held.id];
    RowIsKnown(db', held.id);
  }

  lemma LedgerAssembled(db: Db, db': Db, a: AuditEvent, r: OutboxRecord)
    requires LedgerInv(db) && db'.audit == db.audit + [a] && db'.outbox == db.outbox + [r]
    requires db.payments.Keys <= db'.payments.Keys && a.payment in db'.payments && r.payment in db'.payments
    requires forall id :: id in db'.payments ==> PaymentOk(db', id)
    ensures LedgerInv(db')
  {
  }

  lemma ChainExtends(t: seq<AuditEvent>, a: AuditEvent, o: seq<OutboxRecord>, r: OutboxRecord, p: Payment, q: Payment)
    requires PaymentInv(p, t, o) && SameFacts(p, q) && q.version == p.version + 1
    requires a.meta == ChangeMeta(p.status, q.status) && Legal(p.status, q.status) && Visited(q.status)
    requires ActorMay(a.actor, q.status) && Announces(r, a, false, p)
    ensures PaymentInv(q, t + [a], o + [r])
  {
    var t', o' := t + [a], o + [r];
    forall i | 0 < i < |t'| ensures Link(t', i) {
      if i < |t| { assert Link(t, i); }
    }
    forall i | 0 <= i < |t'| ensures RowFits(q, t', o', i) {
      if i < |t| { assert RowFits(p, t, o, i); }
    }
  }

  lemma AttemptsStay(db: Db, db': Db)
    requires AttemptsInv(db) && Extends(db, db') && db'.attempts == db.attempts
    ensures AttemptsInv(db')
  {
    forall a | a in db'.attempts ensures AttemptOk(db', a) {
      assert AttemptOk(db, a) && SamePayment(db, db', a.payment);
      ReachedStays(AuditTrail(db.audit, a.payment), AuditTrail(db'.audit, a.payment));
    }
  }

  lemma TransitionKeepsRest(sha: string -> string, db: Db, db': Db, r: OutboxRecord)
    requires AttemptsInv(db) && IdempotencyInv(sha, db) && OutboxInv(db.outbox) && Extends(db, db')
    requires db'.attempts == db.attempts && db'.idempotency == db.idempotency && db'.outbox == db.outbox + [r]
    requires db'.payments.Keys == db.payments.Keys && !OutboxIdTaken(db, r.id)
    ensures AttemptsInv(db') && IdempotencyInv(sha, db') && OutboxInv(db'.outbox)
  {
    AttemptsStay(db, db');
    assert forall id :: id in db.payments ==> SamePayment(db, db', id);
    SameFactsKeepBijection(sha, db, db');
    OutboxAppend(db, r);
  }

  lemma TransitionFrame(db: Db, db': Db, held: Payment, a: AuditEvent, r: OutboxRecord, q: Payment)
    requires Transitioned(db, db', held, a, r, q)
    ensures db'.attempts == db.attempts && db'.idempotency == db.idempotency && db'.outbox == db.outbox + [r]
    ensures db'.payments.Keys == db.payments.Keys
  {
  }

  lemma TransitionKeepsInv(sha: string -> string, db: Db, db': Db, held: Payment, a: AuditEvent,
        r: OutboxRecord, q: Payment)
    requires Inv(sha, db) && Transitioned(db, db', held, a, r, q) && !OutboxIdTaken(db, r.id)
    ensures Inv(sha, db') && Extends(db, db') && Known(db', q)
  {
    TransitionKeepsLedger(db, db', held, a, r, q);
    TransitionFrame(db, db', held, a, r, q);
    TransitionKeepsRest(sha, db, db', r);
  }

  lemma SameFactsKeepBijection(sha: string -> string, db: Db, db': Db)
    requires IdempotencyInv(sha, db) && db'.idempotency == db.idempotency && db'.payments.Keys == db.payments.Keys
    requires forall id :: id in db.payments ==> SameFacts(db.payments[id], db'.payments[id])
    ensures IdempotencyInv(sha, db')
  {
    forall r | r in db'.idempotency ensures RowMatches(sha, db', r) {
      assert RowMatches(sha, db, r);
    }
    forall id, id' | id in db'.payments && id' in db'.payments && SameKey(db', id, id') ensures id == id' {
      assert SameKey(db, id, id');
    }
  }

  lemma ReachedStays(t: seq<AuditEvent>, t': seq<AuditEvent>)
    requires t <= t' && ReachedProcessing(t)
    ensures ReachedProcessing(t')
  {
    var i :| 0 <= i < |t| && StatusAfter(t[i]) == Processing;
    assert t'[i] == t[i];
  }

  /** `db'` is `db` after one committed creation. */
  ghost predicate Inserted(sha: string -> string, db: Db, db': Db, p: Payment, row: IdempotencyRow,
        a: AuditEvent, r: OutboxRecord) {
    && p.id !in db.payments && !KeyTaken(db, p.tenant, p.idempotencyKey)
    && p.version == 1 && p.status == Pending && WellMade(p)
    && row == IdempotencyRow(p.tenant, p.idempotencyKey, PaymentFingerprint(sha, p), p.id)
    && a.payment == p.id && r.payment == p.id && a.meta.CreatedMeta? && a.actor.Merchant? && Announces(r, a, true, p)
    && db' == Db(db.payments[p.id := p], db.idempotency + [row], db.audit + [a], db.outbox + [r], db.attempts)
  }

  lemma CreationKeepsPayment(sha: string -> string, db: Db, db': Db, p: Payment, row: IdempotencyRow,
        a: AuditEvent, r: OutboxRecord, id: Uuid)
    requires LedgerInv(db) && Inserted(sha, db, db', p, row, a, r) && id in db'.payments
    ensures PaymentOk(db', id) && (id in db.payments ==> SamePayment(db, db', id))
  {
    TrailAppend(db.audit, a, db.outbox, r, id);
    if id in db.payments {
      assert PaymentOk(db, id);
    } else {
      NoTrail(db.audit, db.outbox, id);
      assert RowFits(p, [a], [r], 0);
    }
  }

  lemma CreationKeepsInv(sha: string -> string, db: Db, db': Db, p: Payment, row: IdempotencyRow,
        a: AuditEvent, r: OutboxRecord)
    requires Inv(sha, db) && Inserted(sha, db, db', p, row, a, r)
    requires !OutboxIdTaken(db, r.id)
    ensures Inv(sha, db') && Extends(db, db') && Known(db', p)
  {
    forall id | id in db'.payments ensures PaymentOk(db', id) && (id in db.payments ==> SamePayment(db, db', id)) {
      CreationKeepsPayment(sha, db, db', p, row, a, r, id);
    }
    AttemptsStay(db, db');
    CreationKeepsBijection(sha, db, db', p, row);
    OutboxAppend(db, r);
    RowIsKnown(db', p.id);
  }

  lemma OutboxAppend(db: Db, r: OutboxRecord)
    requires OutboxInv(db.outbox) && !OutboxIdTaken(db, r.id)
    ensures OutboxInv(db.outbox + [r])
  {
    assert forall i :: 0 <= i < |db.outbox| ==> db.outbox[i] in db.outbox;
  }

  lemma NewRowMatches(sha: string -> string, db: Db, db': Db, p: Payment, row: IdempotencyRow)
    requires RowsMatch(sha, db) && p.id !in db.payments
    requires row == IdempotencyRow(p.tenant, p.idempotencyKey, PaymentFingerprint(sha, p), p.id)
    requires db'.payments == db.payments[p.id := p] && db'.idempotency == db.idempotency + [row]
    ensures RowsMatch(sha, db')
  {
    forall r | r in db'.idempotency ensures RowMatches(sha, db', r) {
      if r != row { assert r in db.idempotency && RowMatches(sha, db, r); }
    }
  }

  lemma NewRowIsDistinct(sha: string -> string, db: Db, row: IdempotencyRow)
    requires RowsMatch(sha, db) && RowsDistinct(db.idempotency) && row.payment !in db.payments
    ensures RowsDistinct(db.idempotency + [row])
  {
    var rows := db.idempotency;
    forall i | 0 <= i < |rows| ensures rows[i].payment != row.payment { assert RowMatches(sha, db, rows[i]); }
  }

  lemma EveryRowFound(rows: seq<IdempotencyRow>, row: IdempotencyRow, id: Uuid)
    requires id == row.payment || HasRow(rows, id)
    ensures HasRow(rows + [row], id)
  {
    var rows' := rows + [row];
    if id == row.payment {
      assert rows'[|rows|].payment == id;
    } else {
      var i :| 0 <= i < |rows| && rows[i].payment == id;
      assert rows'[i].payment == id;
    }
  }

  lemma CreationKeepsBijection(sha: string -> string, db: Db, db': Db, p: Payment, row: IdempotencyRow)
    requires IdempotencyInv(sha, db) && p.id !in db.payments && !KeyTaken(db, p.tenant, p.idempotencyKey)
    requires row == IdempotencyRow(p.tenant, p.idempotencyKey, PaymentFingerprint(sha, p), p.id)
    requires db'.payments == db.payments[p.id := p] && db'.idempotency == db.idempotency + [row]
    ensures IdempotencyInv(sha, db')
  {
    hide RowsMatch, RowsDistinct, HasRow;
    NewRowMatches(sha, db, db', p, row);
    NewRowIsDistinct(sha, db, row);
    forall id | id in db'.payments ensures HasRow(db'.idempotency, id) {
      EveryRowFound(db.idempotency, row, id);
    }
    forall id, id' | id in db'.payments && id' in db'.payments && SameKey(db', id, id') ensures id == id' {
      if id != p.id && id' != p.id { assert SameKey(db, id, id'); }
    }
  }

  /** A stored attempt of a payment that has been processing. */
  lemma AttemptKeepsInv(sha: string -> string, db: Db, a: Attempt)
    requires Inv(sha, db) && AttemptOk(db, a)
    ensures Inv(sha, db.(attempts := db.attempts + [a])) && Extends(db, db.(attempts := db.attempts + [a]))
  {
    var db' := db.(attempts := db.attempts + [a]);
    forall x | x in db'.attempts ensures AttemptOk(db', x) {
      assert AttemptOk(db, x);
    }
    forall id | id in db'.payments ensures PaymentOk(db', id) && SamePayment(db, db', id) {
      assert PaymentOk(db, id);
    }
    SameFactsKeepBijection(sha, db, db');
  }
}
