/** Racing creates: one payment per tenant and key, and replays that return what was asked for. */
module IdempotencyTheorems {
  import opened Ids
  import opened Status
  import opened Rows
  import opened Store
  import opened Fingerprint
  import opened Machine
  import opened Ledger
  import opened System
  import opened Service
  import opened Outcomes
  import opened Calls

  /** Payments and idempotency rows are in bijection, and no tenant has two payments under one key. */
  lemma Bijection(sha: string -> string, events: seq<Event>)
    ensures IdempotencyInv(sha, Run(sha, events).db)
    ensures |Run(sha, events).db.idempotency| == |Run(sha, events).db.payments|
  {
    Reachable(sha, events);
    SameCount(sha, Run(sha, events).db);
  }

  lemma SameCount(sha: string -> string, db: Db)
    requires IdempotencyInv(sha, db)
    ensures |db.idempotency| == |db.payments|
  {
    var rows := db.idempotency;
    var ids := Targets(rows);
    TargetsCount(rows);
    forall id ensures id in ids <==> id in db.payments.Keys {
      TargetsMember(rows, id);
      if id in ids {
        var i :| 0 <= i < |rows| && rows[i].payment == id;
        assert RowMatches(sha, db, rows[i]);
      }
    }
    assert ids == db.payments.Keys;
  }

  function Targets(rows: seq<IdempotencyRow>): set<Uuid> {
    if rows == [] then {} else {rows[0].payment} + Targets(rows[1..])
  }

  lemma {:induction false} TargetsMember(rows: seq<IdempotencyRow>, id: Uuid)
    ensures id in Targets(rows) <==> HasRow(rows, id)
  {
    if rows != [] {
      TargetsMember(rows[1..], id);
      if HasRow(rows[1..], id) {
        var i :| 0 <= i < |rows[1..]| && rows[1..][i].payment == id;
        assert rows[i + 1].payment == id;
      }
      if HasRow(rows, id) {
        var i :| 0 <= i < |rows| && rows[i].payment == id;
        assert i == 0 || rows[1..][i - 1].payment == id;
      }
    }
  }

  lemma {:induction false} TargetsCount(rows: seq<IdempotencyRow>)
    requires RowsDistinct(rows)
    ensures |Targets(rows)| == |rows|
  {
    if rows != [] {
      TargetsCount(rows[1..]);
      TargetsMember(rows[1..], rows[0].payment);
      assert forall i :: 0 <= i < |rows[1..]| ==> rows[1..][i].payment == rows[i + 1].payment != rows[0].payment;
    }
  }

  /** The four values a request fixes. */
  predicate AsksFor(c: CreateCommand, p: Payment) {
    p.merchant == c.merchant && p.orderId == c.orderId && p.amount == c.amount && p.currency == c.currency
  }

  /** The fingerprint comparison lets exactly these requests through. */
  predicate Accepts(sha: string -> string, c: CreateCommand, p: Payment) {
    AsksFor(c, p) || Collides(sha, c, p)
  }

  lemma FingerprintDecides(sha: string -> string, c: CreateCommand, p: Payment)
    requires |c.currency| == 3 && |p.currency| == 3 && p.idempotencyKey == c.idempotencyKey
    ensures PaymentFingerprint(sha, p) == RequestFingerprint(sha, c) <==> Accepts(sha, c, p)
  {
    if RequestText(c) == PaymentText(p) {
      TextInjective(p.merchant, p.orderId, p.amount, p.currency, c.merchant, c.orderId, c.amount, c.currency,
          c.idempotencyKey);
    }
  }

  ghost predicate Occupies(db: Db, c: CreateCommand, id: Uuid) {
    id in db.payments && db.payments[id].tenant == c.tenant && db.payments[id].idempotencyKey == c.idempotencyKey
  }

  /**
   The lookup decides exactly: a free key goes on to the insert, a key whose payment has the four requested
   values replays that payment, and a key whose payment differs in one of them is refused, unless the two texts
   have one digest.
   */
  lemma LookupDecides(sha: string -> string, db: Db, c: CreateCommand, x: Input)
    requires Inv(sha, db) && WellFormed(c) && !x.fault
    ensures var pc := StepLookup(sha, db, c, x);
      && (pc.Inserting? <==> forall id :: !Occupies(db, c, id))
      && (forall id :: Occupies(db, c, id) && Accepts(sha, c, db.payments[id]) ==> pc == Replaying(c, id))
      && (forall id :: Occupies(db, c, id) && !Accepts(sha, c, db.payments[id]) ==> pc == Fail(IdempotencyMismatch))
  {
    hide LedgerInv, AttemptsInv, OutboxInv, PaymentFingerprint, RequestFingerprint, WellFormed, Accepts;
    var found := FindKey(db.idempotency, c.tenant, c.idempotencyKey);
    forall id | Occupies(db, c, id)
      ensures found.Some? && found.value.payment == id
      ensures found.value.fingerprint == RequestFingerprint(sha, c) <==> Accepts(sha, c, db.payments[id])
    {
      OccupantIsFound(sha, db, c, id);
      CurrencyLength(sha, db, id);
      assert |c.currency| == 3 by { WellFormedCurrency(c); }
      FingerprintDecides(sha, c, db.payments[id]);
    }
    if found.Some? {
      assert RowMatches(sha, db, found.value);
      assert Occupies(db, c, found.value.payment);
    }
  }

  lemma WellFormedCurrency(c: CreateCommand)
    requires WellFormed(c)
    ensures |c.currency| == 3
  {
  }

  lemma CurrencyLength(sha: string -> string, db: Db, id: Uuid)
    requires Inv(sha, db) && id in db.payments
    ensures |db.payments[id].currency| == 3
  {
    assert PaymentOk(db, id);
  }

  lemma OccupantIsFound(sha: string -> string, db: Db, c: CreateCommand, id: Uuid)
    requires IdempotencyInv(sha, db) && Occupies(db, c, id)
    ensures var found := FindKey(db.idempotency, c.tenant, c.idempotencyKey);
      found.Some? && found.value.payment == id
      && found.value.fingerprint == PaymentFingerprint(sha, db.payments[id])
  {
    assert HasRow(db.idempotency, id);
    var i :| 0 <= i < |db.idempotency| && db.idempotency[i].payment == id;
    assert RowMatches(sha, db, db.idempotency[i]);
    var found := FindKey(db.idempotency, c.tenant, c.idempotencyKey);
    assert found.Some?;
    assert RowMatches(sha, db, found.value);
    assert SameKey(db, id, found.value.payment);
  }

  /** The insert is refused exactly when the id or the key is taken by then, however alike the two requests are. */
  lemma InsertIff(sha: string -> string, db: Db, c: CreateCommand, p: Payment, x: Input)
    requires Inv(sha, db) && p == NewPayment(c, p.id, p.createdAt) && !x.fault && !OutboxIdTaken(db, x.eventId)
    ensures var (db', pc') := StepInsert(sha, db, c, p, x);
      if p.id in db.payments || exists id :: Occupies(db, c, id)
      then pc' == Fail(Conflict) && db' == db
      else pc' == Done(OkCreated(c, p, false)) && CreatedIn(sha, db, db', p, x.eventId)
  {
    hide LedgerInv, AttemptsInv, OutboxInv, FingerprintText, AsPrefixed, OutboxIdTaken;
    KeyTakenIff(db, c);
    if forall id :: !Occupies(db, c, id) { NoRowWithoutPayment(sha, db, c); }
  }

  /** A new payment as the request asks for it: at least 30 seconds to live, and account to account by default. */
  predicate AsRequested(c: CreateCommand, p: Payment) {
    && p.tenant == c.tenant && p.merchant == c.merchant && p.orderId == c.orderId
    && p.amount == c.amount && p.currency == c.currency && p.idempotencyKey == c.idempotencyKey
    && p.methods == (if c.methods == [] then [AccountToAccount] else c.methods)
    && p.expiresAt == p.createdAt + (if c.expiresInSeconds >= 30 then c.expiresInSeconds else 30) * 1_000_000_000
    && p.status == Pending && p.version == 1 && p.updatedAt == p.createdAt
  }

  lemma NewIsAsRequested(c: CreateCommand, id: Uuid, now: int)
    ensures var p := NewPayment(c, id, now); AsRequested(c, p) && p.id == id && p.createdAt == now
  {
  }

  /** The payment is new, each log has its one row, and nothing else has changed. */
  predicate CreatedIn(sha: string -> string, db: Db, db': Db, p: Payment, event: Uuid) {
    && p.id !in db.payments
    && db' == Db(db.payments[p.id := p],
                 db.idempotency + [IdempotencyRow(p.tenant, p.idempotencyKey, sha(PaymentText(p)), p.id)],
                 db.audit + [AuditEvent(p.tenant, p.id, Merchant(AsPrefixed("mch", p.merchant)), PaymentCreated,
                                        CreatedMeta(p.orderId, p.amount, p.currency), p.createdAt)],
                 db.outbox + [OutboxRecord(event, p.tenant, p.id, PaymentCreated, Pending, p.merchant, p.orderId,
                                           p.amount, p.currency, p.createdAt)],
                 db.attempts)
  }

  lemma KeyTakenIff(db: Db, c: CreateCommand)
    ensures KeyTaken(db, c.tenant, c.idempotencyKey) <==> exists id :: Occupies(db, c, id)
  {
    if KeyTaken(db, c.tenant, c.idempotencyKey) {
      var id :| id in db.payments && db.payments[id].tenant == c.tenant
        && db.payments[id].idempotencyKey == c.idempotencyKey;
      assert Occupies(db, c, id);
    }
  }

  lemma NoRowWithoutPayment(sha: string -> string, db: Db, c: CreateCommand)
    requires IdempotencyInv(sha, db) && forall id :: !Occupies(db, c, id)
    ensures forall r :: r in db.idempotency ==> r.tenant != c.tenant || r.key != c.idempotencyKey
  {
    forall r | r in db.idempotency ensures r.tenant != c.tenant || r.key != c.idempotencyKey {
      assert RowMatches(sha, db, r);
      assert !Occupies(db, c, r.payment);
    }
  }

  /**
   A whole undisturbed create: a taken key replays the payment that holds it or is refused, by the four requested values
   (or a collision); a free key makes the payment, unless its new id is taken.
   */
  lemma CreateIff(sha: string -> string, db: Db, c: CreateCommand, env: nat -> Input)
    requires Inv(sha, db) && WellFormed(c) && Undisturbed(db, env)
    ensures var (db', o) := RunAlone(sha, db, Lookup(c), env, 0);
      && (forall id :: Occupies(db, c, id) ==>
            db' == db && o == if Accepts(sha, c, db.payments[id]) then OkCreated(c, db.payments[id], true)
                              else Refused(StoreSays(IdempotencyMismatch)))
      && ((forall id :: !Occupies(db, c, id)) ==>
            if env(0).newId in db.payments then db' == db && o == Refused(StoreSays(Conflict))
            else o.OkCreated? && o.command == c && !o.replayed && AsRequested(c, o.payment)
                 && o.payment.id == env(0).newId && o.payment.createdAt == env(0).now
                 && CreatedIn(sha, db, db', o.payment, env(1).eventId))
  {
    hide Inv, RunAlone, StepLookup, StepInsert, Accepts, WellFormed, OutboxIdTaken, CreatedIn, NewPayment, AsRequested;
    var x := env(0);
    LookupDecides(sha, db, c, x);
    Unroll(sha, db, Lookup(c), env, 0);
    forall id | Occupies(db, c, id)
      ensures var (db', o) := RunAlone(sha, db, Lookup(c), env, 0);
        db' == db && o == if Accepts(sha, c, db.payments[id]) then OkCreated(c, db.payments[id], true)
                          else Refused(StoreSays(IdempotencyMismatch))
    {
      if Accepts(sha, c, db.payments[id]) { Unroll(sha, db, Replaying(c, id), env, 1); }
    }
    if forall id :: !Occupies(db, c, id) {
      var p := NewPayment(c, x.newId, x.now);
      InsertingIsNew(sha, db, c, x);
      Unroll(sha, db, Inserting(c, p), env, 1);
      NewIsAsRequested(c, x.newId, x.now);
      InsertIff(sha, db, c, p, env(1));
    }
  }

  lemma InsertingIsNew(sha: string -> string, db: Db, c: CreateCommand, x: Input)
    requires StepLookup(sha, db, c, x).Inserting?
    ensures StepLookup(sha, db, c, x) == Inserting(c, NewPayment(c, x.newId, x.now))
  {
  }

  /**
   In a race the key that the lookup found free is taken by the time of the insert, and then, and when the new id is
   taken, the call ends in Conflict with nothing changed; it does not replay, even for the very same request.
   */
  lemma RaceConflictIff(sha: string -> string, events: seq<Event>, i: nat, client: nat, x: Input)
    requires i < |events| && events[i].Advance? && events[i].client == client && !events[i].input.fault
    requires client in Run(sha, events[..i]).clients && Run(sha, events[..i]).clients[client].Lookup?
    requires client in Run(sha, events).clients && Run(sha, events).clients[client].Inserting?
    requires client in Run(sha, events[..i + 1]).clients
    requires Run(sha, events).clients[client] == Run(sha, events[..i + 1]).clients[client]
    requires !x.fault && !OutboxIdTaken(Run(sha, events).db, x.eventId)
    ensures var (s, pc) := (Run(sha, events), Run(sha, events).clients[client]);
      && (forall id :: !Occupies(Run(sha, events[..i]).db, pc.command, id))
      && var s' := Next(sha, s, Advance(client, x));
      && s'.clients[client]
         == (if pc.draft.id in s.db.payments || exists id :: Occupies(s.db, pc.command, id) then Fail(Conflict)
             else Done(OkCreated(pc.command, pc.draft, false)))
      && (s'.clients[client] == Fail(Conflict) ==> s'.db == s.db)
  {
    hide Inv, Run, StepLookup, StepInsert, OutboxIdTaken, WellFormed, NewPayment;
    var s, pc, before := Run(sha, events), Run(sha, events).clients[client], Run(sha, events[..i]);
    Reachable(sha, events);
    assert PcInv(sha, s.db, pc);
    InsertIff(sha, s.db, pc.command, pc.draft, x);
    Reachable(sha, events[..i]);
    assert PcInv(sha, before.db, before.clients[client]);
    assert events[..i + 1][..i] == events[..i] && events[..i + 1] == events[..i] + [events[i]];
    RunAppend(sha, events[..i], events[i]);
    LookupDecides(sha, before.db, before.clients[client].command, events[i].input);
    LookupKeepsCommand(sha, before.db, before.clients[client].command, events[i].input);
  }

  lemma LookupKeepsCommand(sha: string -> string, db: Db, c: CreateCommand, x: Input)
    ensures var pc := StepLookup(sha, db, c, x); pc.Inserting? ==> pc.command == c
  {
  }

  /** Neither the lookup, nor a mismatch, nor a replay changes any table. */
  lemma ReplayChangesNothing(sha: string -> string, db: Db, pc: Pc, x: Input)
    requires pc.Lookup? || pc.Replaying?
    ensures Step(sha, db, pc, x).0 == db
  {
  }

  /** Whoever wins the race, an answered create holds a payment with exactly the requested values, or a collision. */
  lemma CreateReturnsRequested(sha: string -> string, events: seq<Event>, client: nat)
    requires var s := Run(sha, events);
      client in s.clients && s.clients[client].Done? && s.clients[client].outcome.OkCreated?
    ensures var s := Run(sha, events);
      var OkCreated(c, p, _) := s.clients[client].outcome;
      && Accepts(sha, c, p) && p.tenant == c.tenant && p.idempotencyKey == c.idempotencyKey
      && p.id in s.db.payments && SameFacts(p, s.db.payments[p.id])
  {
    hide Inv;
    ReachableOutcome(sha, events, client);
    var OkCreated(c, p, _) := Run(sha, events).clients[client].outcome;
    FingerprintDecides(sha, c, p);
  }

  /** In every run a create that is no replay made its payment as requested, and its facts are stored. */
  lemma CreatedAsRequested(sha: string -> string, events: seq<Event>, client: nat)
    requires var s := Run(sha, events);
      && client in s.clients && s.clients[client].Done? && s.clients[client].outcome.OkCreated?
      && !s.clients[client].outcome.replayed
    ensures var s := Run(sha, events);
      var OkCreated(c, p, _) := s.clients[client].outcome;
      AsRequested(c, p) && p.id in s.db.payments && SameFacts(p, s.db.payments[p.id])
  {
    hide Inv, NewPayment, AsRequested, WellFormed;
    ReachableOutcome(sha, events, client);
    var OkCreated(c, p, _) := Run(sha, events).clients[client].outcome;
    NewIsAsRequested(c, p.id, p.createdAt);
  }

  /** Two answered creates of one tenant and key got the same payment. */
  lemma SameKeySamePayment(sha: string -> string, events: seq<Event>, a: nat, b: nat)
    requires var s := Run(sha, events);
      a in s.clients && s.clients[a].Done? && s.clients[a].outcome.OkCreated?
      && b in s.clients && s.clients[b].Done? && s.clients[b].outcome.OkCreated?
    requires var s := Run(sha, events);
      var (c, d) := (s.clients[a].outcome.command, s.clients[b].outcome.command);
      c.tenant == d.tenant && c.idempotencyKey == d.idempotencyKey
    ensures Run(sha, events).clients[a].outcome.payment.id == Run(sha, events).clients[b].outcome.payment.id
  {
    hide Inv, OutcomeInv;
    ReachableOutcome(sha, events, a);
    ReachableOutcome(sha, events, b);
    UniqueOutcome(sha, Run(sha, events).db, Run(sha, events).clients[a].outcome, Run(sha, events).clients[b].outcome);
  }

  lemma UniqueOutcome(sha: string -> string, db: Db, o: Outcome, o': Outcome)
    requires Inv(sha, db) && OutcomeInv(sha, db, o) && OutcomeInv(sha, db, o') && o.OkCreated? && o'.OkCreated?
    requires o.command.tenant == o'.command.tenant && o.command.idempotencyKey == o'.command.idempotencyKey
    ensures o.payment.id == o'.payment.id
  {
    hide LedgerInv, AttemptsInv, IdempotencyInv, OutboxInv, Known;
    UniqueKey(sha, db, o.payment, o'.payment);
  }

  lemma UniqueKey(sha: string -> string, db: Db, p: Payment, q: Payment)
    requires IdempotencyInv(sha, db) && Known(db, p) && Known(db, q)
    requires p.tenant == q.tenant && p.idempotencyKey == q.idempotencyKey
    ensures p.id == q.id
  {
    assert SameKey(db, p.id, q.id);
  }
}
