/**
 How many authorise calls work on one payment. A call that finds its payment already
 Processing is routed a second time; as long as none does, at most one call tries
 connectors for a payment, and at most one of its attempts is answered.
 */
module SingleRoute {
  import opened Wrappers
  import opened Ids
  import opened Status
  import opened Rows
  import opened Store
  import opened Routing
  import opened Machine
  import opened Ledger
  import opened System
  import opened Theorems
  import Outcomes

  /** A call that is past recording the payer's approval of payment `id`. */
  predicate Late(pc: Pc, id: Uuid) {
    match pc
    case Deciding(p) => p.id == id
    case Trying(run) => run.payment.id == id
    case Finishing(run) => run.payment.id == id
    case _ => false
  }

  function MadeBy(pc: Pc): seq<Attempt> {
    match pc
    case Trying(run) => run.made
    case Finishing(run) => run.made
    case _ => []
  }

  /** The event lets an approving call go on with a payment that it found already Processing. */
  predicate Reapproves(s: State, e: Event, id: Uuid) {
    && e.Advance? && e.client in s.clients
    && var pc := s.clients[e.client];
    && pc.Have? && pc.goal == Authorize(true) && pc.held.id == id && pc.held.status == Processing
  }

  ghost predicate NoReapproval(sha: string -> string, events: seq<Event>, id: Uuid) {
    forall i :: 0 <= i < |events| ==> !Reapproves(Run(sha, events[..i]), events[i], id)
  }

  // ----- What steps do to attempts -----

  /** Attempts are added one at a time, by the call that then lists them as made. */
  predicate AttemptsGrow(db: Db, db': Db, pc: Pc, pc': Pc) {
    || db'.attempts == db.attempts
    || (&& pc.Trying? && Late(pc', pc.run.payment.id) && !pc'.Deciding?
        && |MadeBy(pc')| == |pc.run.made| + 1
        && db'.attempts == db.attempts + [MadeBy(pc')[|pc.run.made|]]
        && MadeBy(pc')[|pc.run.made|].payment == pc.run.payment.id
        && IsNew(db.attempts, MadeBy(pc')[|pc.run.made|]))
  }

  /** No attempt of that id, and none of that connector with that provider reference. */
  predicate IsNew(attempts: seq<Attempt>, a: Attempt) {
    forall b :: b in attempts ==> !SameKeys(a, b)
  }

  predicate SameKeys(a: Attempt, b: Attempt) {
    || a.id == b.id
    || (a.connectorKey == b.connectorKey && a.providerReference.Some? && a.providerReference == b.providerReference)
  }

  lemma TryingGrows(db: Db, run: AuthorizeRun, x: Input)
    requires Runnable(Trying(run))
    ensures var (db', pc') := StepTrying(db, run, x);
      && AttemptsGrow(db, db', Trying(run), pc') && db'.payments == db.payments && db'.audit == db.audit
      && (pc'.Trying? || pc'.Finishing? || pc'.Done?)
      && (!pc'.Done? ==> pc'.run.payment == run.payment && pc'.run.decision == run.decision && pc'.run.keys == run.keys
                         && run.made <= pc'.run.made)
  {
    hide ShouldTryNext, AttemptRefused, AsPrefixed, IsNew, NewAttempt;
    if x.answer.Answered? || x.answer.Errored? {
      var a := NewAttempt(run.payment, run.keys[|run.tried|], x.answer, x.newId, x.now);
      NewAttemptFacts(run.payment, run.keys[|run.tried|], x.answer, x.newId, x.now);
      if !AttemptRefused(db, a) { AcceptedIsNew(db, a); }
    }
  }

  lemma AcceptedIsNew(db: Db, a: Attempt)
    requires !AttemptRefused(db, a)
    ensures IsNew(db.attempts, a)
  {
  }

  lemma ApplyLeavesAttempts(db: Db, held: Payment, next: PaymentStatus, actor: Actor, event: EventType, x: Input)
    ensures ApplyStatus(db, held, next, actor, event, x).0.attempts == db.attempts
  {
  }

  lemma FinishLeavesAttempts(db: Db, held: Payment, next: PaymentStatus, actor: Actor, event: EventType, x: Input)
    ensures ApplyAndFinish(db, held, next, actor, event, x).0.attempts == db.attempts
  {
    hide ApplyStatus;
    ApplyLeavesAttempts(db, held, next, actor, event, x);
  }

  lemma FetchedLeavesAttempts(db: Db, held: Payment, goal: Goal, x: Input)
    ensures var (db', pc') := StepFetched(db, held, goal, x);
      db'.attempts == db.attempts && (pc'.Have? || pc'.Done?) && (pc'.Have? ==> pc'.goal == goal)
  {
    hide ApplyStatus, ApplyAndFinish;
    match goal
    case Cancel(actor) => FinishLeavesAttempts(db, held, Cancelled, Merchant(actor), PaymentCancelled, x);
    case Refund(actor) => FinishLeavesAttempts(db, held, Refunded, Merchant(actor), PaymentRefunded, x);
    case _ =>
      ExpiryOnlyBeforeProcessing(held, x.now);
      ApplyLeavesAttempts(db, held, Expired, SystemExpiry, PaymentExpired, x);
  }

  /** The only way into a late position: the approval of a payment that is Processing or that this step makes so. */
  predicate Enters(db: Db, db': Db, pc: Pc, pc': Pc, x: Input) {
    && pc.Have? && pc.goal == Authorize(true) && pc'.Deciding?
    && if pc.held.status == Processing then db' == db && pc'.held == pc.held
       else ApplyStatus(db, pc.held, Processing, DemoWallet, PaymentProcessing, x) == (db', Ok(pc'.held))
  }

  lemma HaveLeavesAttempts(db: Db, held: Payment, goal: Goal, x: Input)
    ensures var (db', pc') := StepHave(db, held, goal, x);
      && db'.attempts == db.attempts
      && (pc'.Deciding? || pc'.Polling? || pc'.Done?)
      && (pc'.Deciding? ==> Enters(db, db', Have(held, goal), pc', x))
  {
    hide ApplyStatus, ApplyAndFinish, ListAttempts, ReconcilableAttempt;
    match goal
    case Authorize(approve) =>
      FinishLeavesAttempts(db, held, Failed, DemoWallet, PaymentFailed, x);
      ApplyLeavesAttempts(db, held, Processing, DemoWallet, PaymentProcessing, x);
    case Resolve(approves, admin) =>
      FinishLeavesAttempts(db, held, Settled, Admin(admin), PaymentSettled, x);
      FinishLeavesAttempts(db, held, Failed, Admin(admin), PaymentFailed, x);
    case _ =>
  }

  lemma OthersLeaveAttempts(sha: string -> string, db: Db, pc: Pc, x: Input)
    requires pc.Inserting? || pc.Finishing? || pc.Polling? || pc.Expiring?
    ensures var (db', pc') := Step(sha, db, pc, x);
      db'.attempts == db.attempts && (pc'.Done? || pc'.Expiring?)
  {
    hide ApplyStatus;
    match pc
    case Finishing(run) =>
      ApplyLeavesAttempts(db, run.payment, run.lastStatus, Connector(run.lastKey), EventFor(run.lastStatus), x);
    case Polling(held, _) =>
      if x.fetched.Fetches? {
        var next := IntoPaymentStatus(x.fetched.status);
        ApplyLeavesAttempts(db, held, next, ReconcilerWorker, EventFor(next), x);
      }
    case Expiring(due, asOf, _) =>
      if due != [] {
        ExpiryOnlyBeforeProcessing(due[0], asOf);
        ApplyLeavesAttempts(db, due[0], Expired, SystemExpiry, PaymentExpired, x);
      }
    case _ =>
  }

  /** Every step: how attempts grow, who is late afterwards, and how a call gets there. */
  lemma StepShape(sha: string -> string, db: Db, pc: Pc, x: Input, id: Uuid)
    requires Runnable(pc)
    ensures var (db', pc') := Step(sha, db, pc, x);
      && AttemptsGrow(db, db', pc, pc')
      && (Late(pc', id) && !Late(pc, id) ==> Enters(db, db', pc, pc', x))
      && (Late(pc', id) && Late(pc, id) ==> MadeBy(pc) <= MadeBy(pc') && (pc'.Trying? || pc'.Finishing?))
      && (Late(pc, id) && !pc.Trying? ==> MadeBy(pc') == [])
  {
    hide StepLookup, StepFetched, StepHave, StepDeciding, StepTrying, StepListDue, Enters, StepFindAttempt;
    hide StepInsert, StepFinishing, StepPolling, StepExpiring;
    match pc
    case Lookup(c) => LookupIsEarly(sha, db, c, x);
    case Fetched(held, goal) => FetchedLeavesAttempts(db, held, goal, x);
    case Have(held, goal) => HaveLeavesAttempts(db, held, goal, x);
    case Deciding(held) => DecidingShape(held, x);
    case Trying(run) => TryingGrows(db, run, x);
    case FindAttempt(tenant, attempt, approves, admin) => FindIsEarly(db, tenant, attempt, approves, admin, x);
    case ListDue(limit) => ListIsEarly(db, limit, x);
    case Inserting(_, _) => OthersLeaveAttempts(sha, db, pc, x);
    case Finishing(_) => OthersLeaveAttempts(sha, db, pc, x);
    case Polling(_, _) => OthersLeaveAttempts(sha, db, pc, x);
    case Expiring(_, _, _) => OthersLeaveAttempts(sha, db, pc, x);
    case _ =>
  }

  lemma LookupIsEarly(sha: string -> string, db: Db, c: CreateCommand, x: Input)
    ensures var pc' := StepLookup(sha, db, c, x); pc'.Done? || pc'.Replaying? || pc'.Inserting?
  {
  }

  lemma FindIsEarly(db: Db, tenant: Uuid, attempt: Uuid, approves: bool, admin: string, x: Input)
    ensures var pc' := StepFindAttempt(db, tenant, attempt, approves, admin, x); pc'.Done? || pc'.Fetch?
  {
  }

  lemma ListIsEarly(db: Db, limit: nat, x: Input)
    ensures var pc' := StepListDue(db, limit, x); pc'.Done? || pc'.Expiring?
  {
    hide ListExpirable;
  }

  lemma DecidingShape(held: Payment, x: Input)
    ensures var pc' := StepDeciding(held, x);
      (pc'.Done? || pc'.Trying?)
          && (pc'.Trying? ==> pc'.run.payment == held && pc'.run.made == [] && pc'.run.tried == [])
  {
    hide Ranking;
  }

  /** In every run attempt ids are unique, and so are the provider references of each connector. */
  lemma {:induction false} AttemptsAreDistinct(sha: string -> string, events: seq<Event>, i: nat, j: nat)
    requires i < j < |Run(sha, events).db.attempts|
    ensures !SameKeys(Run(sha, events).db.attempts[i], Run(sha, events).db.attempts[j])
  {
    hide Step, AttemptsGrow, SameKeys, Late;
    if events != [] {
      var s, e := Run(sha, events[..|events| - 1]), events[|events| - 1];
      if e.Advance? && e.client in s.clients && Runnable(s.clients[e.client]) {
        var pc := s.clients[e.client];
        StepShape(sha, s.db, pc, e.input, e.input.newId);
        GrowsByNew(s.db, Step(sha, s.db, pc, e.input).0, pc, Step(sha, s.db, pc, e.input).1);
        if j < |s.db.attempts| { AttemptsAreDistinct(sha, events[..|events| - 1], i, j); }
      } else {
        AttemptsAreDistinct(sha, events[..|events| - 1], i, j);
      }
    }
  }

  lemma GrowsByNew(db: Db, db': Db, pc: Pc, pc': Pc)
    requires AttemptsGrow(db, db', pc, pc')
    ensures db.attempts <= db'.attempts && |db'.attempts| <= |db.attempts| + 1
    ensures forall i, j :: 0 <= i < |db.attempts| <= j < |db'.attempts| ==>
      !SameKeys(db'.attempts[i], db'.attempts[j])
  {
    hide SameKeys, Late;
    if db'.attempts != db.attempts {
      var a := db'.attempts[|db.attempts|];
      forall i | 0 <= i < |db.attempts| ensures !SameKeys(db'.attempts[i], a) {
        assert db.attempts[i] in db.attempts;
        KeysSymmetric(db.attempts[i], a);
      }
    }
  }

  lemma KeysSymmetric(a: Attempt, b: Attempt)
    ensures SameKeys(a, b) <==> SameKeys(b, a)
  {
  }

  // ----- One call at a time -----

  /** An answered attempt: the connector did not report an error. */
  predicate AnsweredFor(a: Attempt, id: Uuid) {
    a.payment == id && a.failureCode.None?
  }

  predicate AtMostOneAnswered(attempts: seq<Attempt>, id: Uuid) {
    forall i, j :: 0 <= i < j < |attempts| ==> !(AnsweredFor(attempts[i], id) && AnsweredFor(attempts[j], id))
  }

  /** At most one call is late, it made all attempts there are, and at most one of them was answered. */
  ghost predicate RouteInv(s: State, id: Uuid) {
    && (forall c, c' :: c in s.clients && c' in s.clients && Late(s.clients[c], id) && Late(s.clients[c'], id) ==>
        c == c')
    && (forall c, a :: c in s.clients && Late(s.clients[c], id) && a in s.db.attempts && a.payment == id
          ==> a in MadeBy(s.clients[c]))
    && AtMostOneAnswered(s.db.attempts, id)
  }

  /** A payment that no call has taken to Processing has no attempts, and no call is late for it. */
  lemma Untouched(sha: string -> string, s: State, id: Uuid)
    requires SystemInv(sha, s) && id in s.db.payments && !AfterProcessing(s.db.payments[id].status)
    ensures forall a :: a in s.db.attempts ==> a.payment != id
    ensures forall c :: c in s.clients ==> !Late(s.clients[c], id)
  {
    hide LedgerInv, AfterProcessing, PcInv, IdempotencyInv, OutboxInv, AttemptOk;
    forall a | a in s.db.attempts ensures a.payment != id {
      AttemptMeansProcessed(s.db, a);
    }
    forall c | c in s.clients ensures !Late(s.clients[c], id) {
      if Late(s.clients[c], id) {
        LateIsProcessed(sha, s.db, s.clients[c], id);
      }
    }
  }

  lemma LateIsProcessed(sha: string -> string, db: Db, pc: Pc, id: Uuid)
    requires LedgerInv(db) && PcInv(sha, db, pc) && Late(pc, id)
    ensures id in db.payments && AfterProcessing(db.payments[id].status)
  {
    hide LedgerInv, AfterProcessing, RunTrying, RunFinished;
    var p := match pc case Deciding(p) => p case Trying(run) => run.payment case Finishing(run) => run.payment;
    ProcessingReached(db, p);
    RowStatus(db, p.id);
    var t := AuditTrail(db.audit, p.id);
    var i :| 0 <= i < |t| && StatusAfter(t[i]) == Processing;
    ChainAfterProcessing(t, i, |t| - 1);
  }

  /** A call that makes the payment Processing found it Pending. */
  lemma EntersFromPending(sha: string -> string, db: Db, db': Db, held: Payment, q: Payment, x: Input)
    requires Inv(sha, db) && Known(db, held) && held.status != Processing
    requires ApplyStatus(db, held, Processing, DemoWallet, PaymentProcessing, x) == (db', Ok(q))
    ensures held.id in db.payments && db.payments[held.id].status == Pending && q.id == held.id
    ensures held.id in db'.payments && db'.payments[held.id].status == Processing
  {
    hide Inv, Known, ApplyStatus;
    Outcomes.CurrentVisited(sha, db, held);
    ApplyAccepted(db, db', held, q, x);
    SameId(db, held);
  }

  lemma ApplyAccepted(db: Db, db': Db, held: Payment, q: Payment, x: Input)
    requires ApplyStatus(db, held, Processing, DemoWallet, PaymentProcessing, x) == (db', Ok(q))
    ensures held.id in db.payments && db.payments[held.id].version == held.version
    ensures Legal(db.payments[held.id].status, Processing) && q.id == db.payments[held.id].id
    ensures held.id in db'.payments && db'.payments[held.id].status == Processing
  {
  }

  lemma SameId(db: Db, held: Payment)
    requires Known(db, held)
    ensures held.id in db.payments && db.payments[held.id].id == held.id
  {
  }

  lemma NoneAnsweredYet(s: State, c: nat, id: Uuid)
    requires RouteInv(s, id) && c in s.clients && s.clients[c].Trying? && Late(s.clients[c], id)
    requires RunTrying(s.clients[c].run)
    ensures forall a :: a in s.db.attempts ==> !AnsweredFor(a, id)
  {
    hide RunShape;
    forall a | a in s.db.attempts ensures !AnsweredFor(a, id) {
      if a.payment == id {
        assert a in MadeBy(s.clients[c]);
        assert AllowedFailure(s.clients[c].run.decision.fallback, a);
      }
    }
  }

  lemma OneMore(attempts: seq<Attempt>, a: Attempt, id: Uuid)
    requires AtMostOneAnswered(attempts, id)
    requires a.payment != id || forall b :: b in attempts ==> !AnsweredFor(b, id)
    ensures AtMostOneAnswered(attempts + [a], id)
  {
    var all := attempts + [a];
    forall i, j | 0 <= i < j < |all| ensures !(AnsweredFor(all[i], id) && AnsweredFor(all[j], id)) {
      if j == |attempts| { assert all[i] in attempts; }
    }
  }

  lemma AdvanceKeepsRoute(sha: string -> string, s: State, c: nat, x: Input, id: Uuid)
    requires SystemInv(sha, s) && RouteInv(s, id) && c in s.clients && Runnable(s.clients[c])
    requires !Reapproves(s, Advance(c, x), id)
    ensures RouteInv(Next(sha, s, Advance(c, x)), id)
  {
    hide Inv, Step, RunTrying, RunFinished, Known, AtMostOneAnswered, OutcomeInv, AnsweredFor;
    var pc := s.clients[c];
    var (db', pc') := Step(sha, s.db, pc, x);
    StepShape(sha, s.db, pc, x, id);
    assert PcInv(sha, s.db, pc);
    if Late(pc', id) && !Late(pc, id) {
      EntersFromPending(sha, s.db, db', pc.held, pc'.held, x);
      Untouched(sha, s, id);
    } else if db'.attempts != s.db.attempts {
      if Late(pc, id) { NoneAnsweredYet(s, c, id); }
      OneMore(s.db.attempts, MadeBy(pc')[|pc.run.made|], id);
    }
  }

  lemma NextKeepsRoute(sha: string -> string, s: State, e: Event, id: Uuid)
    requires SystemInv(sha, s) && RouteInv(s, id) && !Reapproves(s, e, id)
    ensures RouteInv(Next(sha, s, e), id)
  {
    hide SystemInv, AtMostOneAnswered, Step;
    match e
    case Advance(c, x) => if c in s.clients && Runnable(s.clients[c]) { AdvanceKeepsRoute(sha, s, c, x, id); }
    case Start(c, program) =>
  }

  lemma {:induction false} RunKeepsRoute(sha: string -> string, events: seq<Event>, id: Uuid)
    requires NoReapproval(sha, events, id)
    ensures RouteInv(Run(sha, events), id)
  {
    hide RouteInv, SystemInv, Next, Reapproves;
    if events == [] {
      NothingRouted(id);
    } else {
      var n := |events| - 1;
      ShorterRun(sha, events, id);
      RunKeepsRoute(sha, events[..n], id);
      Reachable(sha, events[..n]);
      NextKeepsRoute(sha, Run(sha, events[..n]), events[n], id);
    }
  }

  lemma ShorterRun(sha: string -> string, events: seq<Event>, id: Uuid)
    requires NoReapproval(sha, events, id) && events != []
    ensures NoReapproval(sha, events[..|events| - 1], id)
  {
    hide Run, Reapproves;
    var before := events[..|events| - 1];
    forall i | 0 <= i < |before| ensures !Reapproves(Run(sha, before[..i]), before[i], id) {
      assert before[..i] == events[..i];
    }
  }

  lemma NothingRouted(id: Uuid)
    ensures RouteInv(INITIAL, id)
  {
  }

  /**
   In every run in which no call goes on with the payment after finding it already Processing, at most one connector
   answered for it, whatever was tried before.
   */
  lemma OneAnswerPerPayment(sha: string -> string, events: seq<Event>, id: Uuid)
    requires NoReapproval(sha, events, id)
    ensures AtMostOneAnswered(Run(sha, events).db.attempts, id)
  {
    RunKeepsRoute(sha, events, id);
  }
}
