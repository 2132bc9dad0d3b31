/**
 The promise that an ambiguous payment stays in Processing until it is reconciled,
 as a statement about the row in every run: which events end it, when no event
 does, and one failing input for every condition.
 */
module AmbiguousRows {
  import opened Wrappers
  import opened Ids
  import opened Status
  import opened Rows
  import opened Store
  import opened Routing
  import opened Machine
  import opened Ledger
  import opened System
  import opened Theorems
  import opened SingleRoute
  import opened Ambiguity

  // ----- Leaving Processing -----

  /** The status a program position would write over Processing. */
  function Writes(pc: Pc, x: Input): Option<PaymentStatus> {
    match pc
    case Have(_, Authorize(false)) => Some(Failed)
    case Have(_, Resolve(approves, _)) => Some(if approves then Settled else Failed)
    case Finishing(run) => Some(run.lastStatus)
    case Polling(_, _) => if x.fetched.Fetches? then Some(IntoPaymentStatus(x.fetched.status)) else None
    case _ => None
  }

  /** The position holds the current row of payment `id`, the store takes its write, and the write ends Processing. */
  predicate Concludes(db: Db, pc: Pc, x: Input, id: Uuid)
    requires id in db.payments
  {
    && HeldBy(pc).Some? && HeldBy(pc).value.id == id && HeldBy(pc).value.version == db.payments[id].version
    && !x.fault && !OutboxIdTaken(db, x.eventId)
    && Writes(pc, x) in {Some(Authorized), Some(Settled), Some(Failed)}
  }

  lemma ApplyIff(sha: string -> string, db: Db, held: Payment, next: PaymentStatus, actor: Actor, event: EventType,
                 x: Input, id: Uuid)
    requires Inv(sha, db) && Known(db, held) && id in db.payments && db.payments[id].status == Processing
    ensures var db' := ApplyStatus(db, held, next, actor, event, x).0;
      && id in db'.payments
      && (db'.payments[id].status != Processing <==>
            held.id == id && held.version == db.payments[id].version && !x.fault && !OutboxIdTaken(db, x.eventId)
            && next in {Authorized, Settled, Failed})
  {
    hide LedgerInv, AttemptsInv, IdempotencyInv, OutboxInv;
    if held.id == id && held.version == db.payments[id].version {
      CurrentSnapshot(db, held);
      SameOwner(db, held);
    }
    hide Known;
  }

  lemma SameOwner(db: Db, held: Payment)
    requires Known(db, held)
    ensures held.id in db.payments && db.payments[held.id].tenant == held.tenant
  {
  }

  lemma FetchedStays(sha: string -> string, db: Db, held: Payment, goal: Goal, x: Input, id: Uuid)
    requires Inv(sha, db) && Known(db, held) && id in db.payments && db.payments[id].status == Processing
    ensures var db' := StepFetched(db, held, goal, x).0; id in db'.payments && db'.payments[id].status == Processing
  {
    hide Inv, Known, ApplyStatus;
    match goal
    case Cancel(actor) => ApplyIff(sha, db, held, Cancelled, Merchant(actor), PaymentCancelled, x, id);
    case Refund(actor) => ApplyIff(sha, db, held, Refunded, Merchant(actor), PaymentRefunded, x, id);
    case _ =>
      ExpiryOnlyBeforeProcessing(held, x.now);
      ApplyIff(sha, db, held, Expired, SystemExpiry, PaymentExpired, x, id);
  }

  lemma ExpiringStays(sha: string -> string, db: Db, due: seq<Payment>, asOf: int, n: nat, x: Input, id: Uuid)
    requires Inv(sha, db) && (forall p :: p in due ==> Known(db, p))
    requires id in db.payments && db.payments[id].status == Processing
    ensures var db' := StepExpiring(db, due, asOf, n, x).0; id in db'.payments && db'.payments[id].status == Processing
  {
    hide Inv, Known, ApplyStatus;
    if due != [] {
      ExpiryOnlyBeforeProcessing(due[0], asOf);
      ApplyIff(sha, db, due[0], Expired, SystemExpiry, PaymentExpired, x, id);
    }
  }

  lemma HaveIff(sha: string -> string, db: Db, held: Payment, goal: Goal, x: Input, id: Uuid)
    requires Inv(sha, db) && Known(db, held) && id in db.payments && db.payments[id].status == Processing
    ensures var db' := StepHave(db, held, goal, x).0;
      id in db'.payments && (db'.payments[id].status != Processing <==> Concludes(db, Have(held, goal), x, id))
  {
    hide Inv, ApplyStatus, ListAttempts, ReconcilableAttempt, OutboxIdTaken;
    if held.version == db.payments[id].version && held.id == id { HeldIsProcessing(sha, db, held); }
    hide Known;
    match goal
    case Authorize(approve) =>
      ApplyIff(sha, db, held, Failed, DemoWallet, PaymentFailed, x, id);
      ApplyIff(sha, db, held, Processing, DemoWallet, PaymentProcessing, x, id);
    case Resolve(approves, admin) =>
      ApplyIff(sha, db, held, Settled, Admin(admin), PaymentSettled, x, id);
      ApplyIff(sha, db, held, Failed, Admin(admin), PaymentFailed, x, id);
    case _ =>
  }

  lemma HeldIsProcessing(sha: string -> string, db: Db, held: Payment)
    requires Inv(sha, db) && Known(db, held) && held.id in db.payments && db.payments[held.id].version == held.version
    ensures held.status == db.payments[held.id].status
  {
    CurrentSnapshot(db, held);
  }

  lemma FinishingStaysIff(sha: string -> string, db: Db, run: AuthorizeRun, x: Input, id: Uuid)
    requires Inv(sha, db) && RunStored(db, run) && id in db.payments && db.payments[id].status == Processing
    ensures var db' := StepFinishing(db, run, x).0;
      id in db'.payments && (db'.payments[id].status != Processing <==> Concludes(db, Finishing(run), x, id))
  {
    hide Inv, Known, ApplyStatus;
    ApplyIff(sha, db, run.payment, run.lastStatus, Connector(run.lastKey), EventFor(run.lastStatus), x, id);
  }

  lemma PollingStaysIff(sha: string -> string, db: Db, held: Payment, a: Attempt, x: Input, id: Uuid)
    requires Inv(sha, db) && Known(db, held) && held.status == Processing
    requires id in db.payments && db.payments[id].status == Processing
    ensures var db' := StepPolling(db, held, x).0;
      id in db'.payments && (db'.payments[id].status != Processing <==> Concludes(db, Polling(held, a), x, id))
  {
    hide Inv, Known, ApplyStatus;
    if x.fetched.Fetches? {
      var next := IntoPaymentStatus(x.fetched.status);
      ApplyIff(sha, db, held, next, ReconcilerWorker, EventFor(next), x, id);
    }
  }

  lemma StepLeavesIff(sha: string -> string, db: Db, pc: Pc, x: Input, id: Uuid)
    requires Inv(sha, db) && PcInv(sha, db, pc) && Runnable(pc) && id in db.payments
        && db.payments[id].status == Processing
    ensures var db' := Step(sha, db, pc, x).0;
      id in db'.payments && (db'.payments[id].status != Processing <==> Concludes(db, pc, x, id))
  {
    hide Inv, Known, RunFinished, RunTrying, OutcomeInv;
    hide StepLookup, StepFetched, StepHave, StepDeciding, StepFinishing, StepPolling, StepListDue, StepExpiring;
    hide StepTrying;
    match pc
    case Fetched(held, goal) => FetchedStays(sha, db, held, goal, x, id);
    case Have(held, goal) => HaveIff(sha, db, held, goal, x, id);
    case Trying(run) => TryingGrows(db, run, x);
    case Finishing(run) => FinishingStaysIff(sha, db, run, x, id);
    case Polling(held, a) => PollingStaysIff(sha, db, held, a, x, id);
    case Expiring(due, asOf, n) => ExpiringStays(sha, db, due, asOf, n, x, id);
    case _ =>
  }

  /** The event is a step that takes payment `id` out of Processing. */
  predicate Ends(s: State, e: Event, id: Uuid)
    requires id in s.db.payments
  {
    && e.Advance? && e.client in s.clients && Runnable(s.clients[e.client])
    && Concludes(s.db, s.clients[e.client], e.input, id)
  }

  /**
   In every reachable state: an event takes a payment out of Processing if and only if it is the committing step of a
   poll, of a payer's rejection, of an admin's decision or of the end of an authorise call, with the current row and
   with Authorized, Settled or Failed to write.
   */
  lemma LeavesProcessingIff(sha: string -> string, events: seq<Event>, e: Event, id: Uuid)
    requires id in Run(sha, events).db.payments && Run(sha, events).db.payments[id].status == Processing
    ensures var (s, s') := (Run(sha, events), Next(sha, Run(sha, events), e));
      id in s'.db.payments && (s'.db.payments[id].status != Processing <==> Ends(s, e, id))
  {
    hide Run;
    Reachable(sha, events);
    NextLeavesIff(sha, Run(sha, events), e, id);
  }

  lemma NextLeavesIff(sha: string -> string, s: State, e: Event, id: Uuid)
    requires SystemInv(sha, s) && id in s.db.payments && s.db.payments[id].status == Processing
    ensures var s' := Next(sha, s, e);
      id in s'.db.payments && (s'.db.payments[id].status != Processing <==> Ends(s, e, id))
  {
    hide Inv, PcInv, Step, Concludes;
    if e.Advance? && e.client in s.clients && Runnable(s.clients[e.client]) {
      assert PcInv(sha, s.db, s.clients[e.client]);
      StepLeavesIff(sha, s.db, s.clients[e.client], e.input, id);
    }
  }

  // ----- The promise -----

  /** The reconciler has written a status of the payment. */
  predicate ByReconciler(db: Db, id: Uuid) {
    exists a :: a in db.audit && a.payment == id && a.actor == ReconcilerWorker
  }

  /** Ambiguous, hence still Processing, until reconciliation. */
  predicate PromiseAt(db: Db, id: Uuid) {
    Open(db, id) ==> id in db.payments && (db.payments[id].status == Processing || ByReconciler(db, id))
  }

  ghost predicate PromiseKept(sha: string -> string, events: seq<Event>, id: Uuid) {
    forall n :: 0 <= n <= |events| ==> PromiseAt(Run(sha, events[..n]).db, id)
  }

  /** The step stores an ambiguous attempt of payment `id`. */
  predicate Records(db: Db, pc: Pc, x: Input, id: Uuid)
    requires Runnable(pc)
  {
    && pc.Trying? && pc.run.payment.id == id && !x.fault && (x.answer.Answered? || x.answer.Errored?)
    && var a := NewAttempt(pc.run.payment, pc.run.keys[|pc.run.tried|], x.answer, x.newId, x.now);
    a.status == AAmbiguous && !AttemptRefused(db, a)
  }

  lemma TryingRecords(db: Db, run: AuthorizeRun, x: Input)
    requires Runnable(Trying(run))
    ensures var (db', pc') := StepTrying(db, run, x);
      && db'.payments == db.payments && db'.audit == db.audit
      && (if !x.fault && (x.answer.Answered? || x.answer.Errored?)
             && !AttemptRefused(db, NewAttempt(run.payment, run.keys[|run.tried|], x.answer, x.newId, x.now))
          then db'.attempts == db.attempts + [NewAttempt(run.payment, run.keys[|run.tried|], x.answer, x.newId, x.now)]
          else db'.attempts == db.attempts)
  {
    hide AttemptRefused, ShouldTryNext, NewAttempt;
  }

  lemma OpensIff(sha: string -> string, db: Db, pc: Pc, x: Input, id: Uuid)
    requires Runnable(pc)
    ensures var db' := Step(sha, db, pc, x).0;
      && (Open(db, id) ==> Open(db', id))
      && (!Open(db, id) ==> (Open(db', id) <==> Records(db, pc, x, id)))
      && (pc.Trying? ==> db'.payments == db.payments && db'.audit == db.audit)
  {
    hide AttemptRefused, StepTrying, AttemptsGrow, NewAttempt;
    if pc.Trying? {
      TryingRecords(db, pc.run, x);
      NewAttemptPayment(pc.run.payment, pc.run.keys[|pc.run.tried|], x);
    } else {
      SameAttempts(sha, db, pc, x, id);
      hide Step;
    }
  }

  lemma NewAttemptPayment(p: Payment, key: string, x: Input)
    ensures x.answer.Answered? || x.answer.Errored? ==> NewAttempt(p, key, x.answer, x.newId, x.now).payment == p.id
  {
  }

  lemma SameAttempts(sha: string -> string, db: Db, pc: Pc, x: Input, id: Uuid)
    requires Runnable(pc) && !pc.Trying?
    ensures Step(sha, db, pc, x).0.attempts == db.attempts
  {
    hide Step;
    StepShape(sha, db, pc, x, id);
  }

  // ----- Who writes as the reconciler -----

  predicate AuditGrows(db: Db, db': Db, held: Payment, actor: Actor) {
    || (db'.audit == db.audit && db'.payments == db.payments)
    || (|db'.audit| == |db.audit| + 1 && db'.audit[..|db.audit|] == db.audit
        && db'.audit[|db.audit|].payment == held.id && db'.audit[|db.audit|].actor == actor)
  }

  lemma ApplyAudits(db: Db, held: Payment, next: PaymentStatus, actor: Actor, event: EventType, x: Input)
    ensures AuditGrows(db, ApplyStatus(db, held, next, actor, event, x).0, held, actor)
  {
  }

  lemma GrownByOther(db: Db, db': Db, held: Payment, actor: Actor, id: Uuid)
    requires AuditGrows(db, db', held, actor)
    ensures ByReconciler(db, id) ==> ByReconciler(db', id)
    ensures actor != ReconcilerWorker ==> (ByReconciler(db', id) <==> ByReconciler(db, id))
    ensures actor == ReconcilerWorker && held.id == id && db'.payments != db.payments ==> ByReconciler(db', id)
  {
    if db'.audit != db.audit {
      var last := db'.audit[|db.audit|];
      assert db'.audit == db.audit + [last];
      assert forall a :: a in db'.audit <==> a in db.audit || a == last;
    }
  }

  lemma ApplyOthers(db: Db, held: Payment, next: PaymentStatus, actor: Actor, event: EventType, x: Input, id: Uuid)
    requires actor != ReconcilerWorker
    ensures ByReconciler(ApplyStatus(db, held, next, actor, event, x).0, id) <==> ByReconciler(db, id)
  {
    hide ApplyStatus, ByReconciler, AuditGrows;
    ApplyAudits(db, held, next, actor, event, x);
    GrownByOther(db, ApplyStatus(db, held, next, actor, event, x).0, held, actor, id);
  }

  lemma FetchedAudits(db: Db, held: Payment, goal: Goal, x: Input, id: Uuid)
    ensures ByReconciler(StepFetched(db, held, goal, x).0, id) <==> ByReconciler(db, id)
  {
    hide ApplyStatus, ByReconciler;
    match goal
    case Cancel(actor) => ApplyOthers(db, held, Cancelled, Merchant(actor), PaymentCancelled, x, id);
    case Refund(actor) => ApplyOthers(db, held, Refunded, Merchant(actor), PaymentRefunded, x, id);
    case _ =>
      ExpiryOnlyBeforeProcessing(held, x.now);
      ApplyOthers(db, held, Expired, SystemExpiry, PaymentExpired, x, id);
  }

  lemma HaveAudits(db: Db, held: Payment, goal: Goal, x: Input, id: Uuid)
    ensures ByReconciler(StepHave(db, held, goal, x).0, id) <==> ByReconciler(db, id)
  {
    hide ApplyStatus, ByReconciler, ListAttempts, ReconcilableAttempt;
    match goal
    case Authorize(approve) =>
      ApplyOthers(db, held, Failed, DemoWallet, PaymentFailed, x, id);
      ApplyOthers(db, held, Processing, DemoWallet, PaymentProcessing, x, id);
    case Resolve(approves, admin) =>
      ApplyOthers(db, held, Settled, Admin(admin), PaymentSettled, x, id);
      ApplyOthers(db, held, Failed, Admin(admin), PaymentFailed, x, id);
    case _ =>
  }

  lemma FinishingAudits(db: Db, run: AuthorizeRun, x: Input, id: Uuid)
    ensures ByReconciler(StepFinishing(db, run, x).0, id) <==> ByReconciler(db, id)
  {
    hide ApplyStatus, ByReconciler;
    ApplyOthers(db, run.payment, run.lastStatus, Connector(run.lastKey), EventFor(run.lastStatus), x, id);
  }

  lemma ExpiringAudits(db: Db, due: seq<Payment>, asOf: int, n: nat, x: Input, id: Uuid)
    ensures ByReconciler(StepExpiring(db, due, asOf, n, x).0, id) <==> ByReconciler(db, id)
  {
    hide ApplyStatus, ByReconciler;
    if due != [] {
      ExpiryOnlyBeforeProcessing(due[0], asOf);
      ApplyOthers(db, due[0], Expired, SystemExpiry, PaymentExpired, x, id);
    }
  }

  lemma InsertAudits(sha: string -> string, db: Db, c: CreateCommand, p: Payment, x: Input, id: Uuid)
    ensures ByReconciler(StepInsert(sha, db, c, p, x).0, id) <==> ByReconciler(db, id)
  {
    var db' := StepInsert(sha, db, c, p, x).0;
    assert forall a :: a in db'.audit ==> a in db.audit || a.actor.Merchant?;
    assert forall a :: a in db.audit ==> a in db'.audit;
  }

  lemma PollingAudits(db: Db, held: Payment, x: Input, id: Uuid)
    ensures var db' := StepPolling(db, held, x).0;
      && (ByReconciler(db, id) ==> ByReconciler(db', id))
      && (held.id == id && db'.payments != db.payments ==> ByReconciler(db', id))
  {
    hide ApplyStatus, ByReconciler, AuditGrows;
    if x.fetched.Fetches? {
      var next := IntoPaymentStatus(x.fetched.status);
      ApplyAudits(db, held, next, ReconcilerWorker, EventFor(next), x);
      GrownByOther(db, ApplyStatus(db, held, next, ReconcilerWorker, EventFor(next), x).0, held, ReconcilerWorker, id);
    }
  }

  /** Only a poll writes as the reconciler, and a poll that changes the row does. */
  lemma ReconcilerIff(sha: string -> string, db: Db, pc: Pc, x: Input, id: Uuid)
    requires Runnable(pc)
    ensures var db' := Step(sha, db, pc, x).0;
      && (ByReconciler(db, id) ==> ByReconciler(db', id))
      && (!pc.Polling? ==> (ByReconciler(db', id) <==> ByReconciler(db, id)))
      && (pc.Polling? && pc.held.id == id && db'.payments != db.payments ==> ByReconciler(db', id))
  {
    hide StepLookup, StepFetched, StepHave, StepDeciding, StepTrying, StepFinishing, StepPolling, StepListDue;
    hide StepInsert, StepExpiring, StepFindAttempt, ByReconciler;
    match pc
    case Fetched(held, goal) => FetchedAudits(db, held, goal, x, id);
    case Have(held, goal) => HaveAudits(db, held, goal, x, id);
    case Trying(run) => TryingRecords(db, run, x); SameAudit(db, StepTrying(db, run, x).0, id);
    case Finishing(run) => FinishingAudits(db, run, x, id);
    case Polling(held, _) => PollingAudits(db, held, x, id);
    case Expiring(due, asOf, n) => ExpiringAudits(db, due, asOf, n, x, id);
    case Inserting(c, p) => InsertAudits(sha, db, c, p, x, id);
    case _ =>
  }

  lemma SameAudit(db: Db, db': Db, id: Uuid)
    requires db'.audit == db.audit
    ensures ByReconciler(db', id) <==> ByReconciler(db, id)
  {
  }

  // ----- When the promise is kept -----

  /**
   The event breaks the promise: anything but a poll ends Processing while an ambiguous attempt is open, or an ambiguous
   attempt is stored for a payment that has left Processing already.
   */
  predicate Breaks(s: State, e: Event, id: Uuid) {
    && id in s.db.payments && !ByReconciler(s.db, id)
    && e.Advance? && e.client in s.clients && Runnable(s.clients[e.client])
    && var pc := s.clients[e.client];
    if s.db.payments[id].status == Processing
    then Open(s.db, id) && Concludes(s.db, pc, e.input, id) && !pc.Polling?
    else !Open(s.db, id) && Records(s.db, pc, e.input, id)
  }

  lemma AdvanceBreaksIff(sha: string -> string, s: State, c: nat, x: Input, id: Uuid)
    requires SystemInv(sha, s) && PromiseAt(s.db, id) && c in s.clients && Runnable(s.clients[c])
    ensures PromiseAt(Next(sha, s, Advance(c, x)).db, id) <==> !Breaks(s, Advance(c, x), id)
  {
    hide Inv, PcInv, Step, Open, ByReconciler, Concludes, Records;
    var pc := s.clients[c];
    var db' := Step(sha, s.db, pc, x).0;
    assert PcInv(sha, s.db, pc);
    OpensIff(sha, s.db, pc, x, id);
    ReconcilerIff(sha, s.db, pc, x, id);
    ReconciledExists(sha, s.db, id);
    StepExtends(sha, s.db, pc, x, id);
    if id in s.db.payments && s.db.payments[id].status == Processing {
      StepLeavesIff(sha, s.db, pc, x, id);
      PollHolds(s.db, pc, x, id);
    }
    if Records(s.db, pc, x, id) { RecordedExists(sha, s.db, pc, x, id); }
  }

  lemma ReconciledExists(sha: string -> string, db: Db, id: Uuid)
    requires Inv(sha, db)
    ensures ByReconciler(db, id) ==> id in db.payments
  {
  }

  lemma StepExtends(sha: string -> string, db: Db, pc: Pc, x: Input, id: Uuid)
    requires Inv(sha, db) && PcInv(sha, db, pc) && Runnable(pc)
    ensures id in db.payments ==> id in Step(sha, db, pc, x).0.payments
  {
    hide Inv, PcInv, Step;
    StepKeeps(sha, db, pc, x);
    if id in db.payments { assert SamePayment(db, Step(sha, db, pc, x).0, id); }
  }

  lemma PollHolds(db: Db, pc: Pc, x: Input, id: Uuid)
    requires id in db.payments
    ensures Concludes(db, pc, x, id) && pc.Polling? ==> pc.held.id == id
  {
  }

  lemma RecordedExists(sha: string -> string, db: Db, pc: Pc, x: Input, id: Uuid)
    requires PcInv(sha, db, pc) && Runnable(pc) && Records(db, pc, x, id)
    ensures id in db.payments && pc.Trying?
  {
  }

  lemma NextBreaksIff(sha: string -> string, s: State, e: Event, id: Uuid)
    requires SystemInv(sha, s) && PromiseAt(s.db, id)
    ensures PromiseAt(Next(sha, s, e).db, id) <==> !Breaks(s, e, id)
  {
    hide SystemInv, PromiseAt, Step;
    match e
    case Advance(c, x) => if c in s.clients && Runnable(s.clients[c]) { AdvanceBreaksIff(sha, s, c, x, id); }
    case Start(_, _) =>
  }

  lemma NothingOpen(id: Uuid)
    ensures PromiseAt(INITIAL.db, id)
  {
  }

  ghost predicate NothingBreaks(sha: string -> string, events: seq<Event>, id: Uuid) {
    forall i :: 0 <= i < |events| ==> !Breaks(Run(sha, events[..i]), events[i], id)
  }

  lemma NothingBreaksNext(sha: string -> string, before: seq<Event>, e: Event, id: Uuid)
    ensures NothingBreaks(sha, before + [e], id) <==>
      NothingBreaks(sha, before, id) && !Breaks(Run(sha, before), e, id)
  {
    hide Run, Breaks;
    var events := before + [e];
    assert forall i :: 0 <= i <= |before| ==> events[..i] == before[..i];
    assert before[..|before|] == before && events[|before|] == e;
    assert forall i :: 0 <= i < |before| ==> events[i] == before[i];
  }

  lemma PromiseKeptNext(sha: string -> string, before: seq<Event>, e: Event, id: Uuid)
    ensures PromiseKept(sha, before + [e], id) <==>
      PromiseKept(sha, before, id) && PromiseAt(Run(sha, before + [e]).db, id)
  {
    hide Run, PromiseAt;
    var events := before + [e];
    assert forall i :: 0 <= i <= |before| ==> events[..i] == before[..i];
    assert events[..|events|] == events;
  }

  lemma KeptAtEnd(sha: string -> string, events: seq<Event>, id: Uuid)
    requires PromiseKept(sha, events, id)
    ensures PromiseAt(Run(sha, events).db, id)
  {
    hide Run, PromiseAt;
    assert events[..|events|] == events;
  }

  /** The promise is kept in a run exactly when no event of the run breaks it. */
  lemma {:induction false} PromiseKeptIff(sha: string -> string, events: seq<Event>, id: Uuid)
    ensures PromiseKept(sha, events, id) <==> NothingBreaks(sha, events, id)
  {
    hide Next, Breaks, SystemInv, PromiseAt, PromiseKept, NothingBreaks;
    if events == [] {
      EmptyRunKeeps(sha, id);
    } else {
      var before, e := events[..|events| - 1], events[|events| - 1];
      assert events == before + [e];
      PromiseKeptIff(sha, before, id);
      PromiseKeptNext(sha, before, e, id);
      NothingBreaksNext(sha, before, e, id);
      if PromiseKept(sha, before, id) {
        KeptAtEnd(sha, before, id);
        Reachable(sha, before);
        NextBreaksIff(sha, Run(sha, before), e, id);
      }
    }
  }

  lemma EmptyRunKeeps(sha: string -> string, id: Uuid)
    ensures PromiseKept(sha, [], id) && NothingBreaks(sha, [], id)
  {
    NothingOpen(id);
  }

  // ----- What a caller can check -----

  /** A rejection by the payer of this payment, or an admin's decision on one of its attempts. */
  predicate Decides(attempts: seq<Attempt>, pc: Pc, id: Uuid) {
    match pc
    case Fetch(_, i, Authorize(false)) => i == id
    case Fetch(_, i, Resolve(_, _)) => i == id
    case Fetched(p, Authorize(false)) => p.id == id
    case Fetched(p, Resolve(_, _)) => p.id == id
    case Have(p, Authorize(false)) => p.id == id
    case Have(p, Resolve(_, _)) => p.id == id
    case FindAttempt(_, a, _, _) => exists b :: b in attempts && b.id == a && b.payment == id
    case _ => false
  }

  /** A call for this payment is routed under a policy that goes on after a timeout. */
  predicate RoutesPastTimeouts(s: State, e: Event, id: Uuid) {
    && e.Advance? && e.client in s.clients && s.clients[e.client].Deciding? && s.clients[e.client].held.id == id
    && var pc := StepDeciding(s.clients[e.client].held, e.input);
    pc.Trying? && PassesTimeouts(pc.run)
  }

  /**
   Nobody rejects the payment or decides an attempt of it, no approving call goes on after finding it already
   Processing, and it is never routed under a policy that goes on after a timeout.
   */
  ghost predicate QuietRun(sha: string -> string, events: seq<Event>, id: Uuid, attempts: seq<Attempt>) {
    forall i :: 0 <= i < |events| ==> QuietEvent(Run(sha, events[..i]), events[i], id, attempts)
  }

  predicate QuietEvent(s: State, e: Event, id: Uuid, attempts: seq<Attempt>) {
    && !Reapproves(s, e, id) && !RoutesPastTimeouts(s, e, id)
    && (e.Start? ==> !Decides(attempts, e.program, id))
  }

  predicate HeldOpen(db: Db, id: Uuid) {
    id in db.payments && (db.payments[id].status == Processing || ByReconciler(db, id))
  }

  /** What one client of a quiet run may be doing about the payment. */
  ghost predicate QuietClient(db: Db, pc: Pc, id: Uuid, attempts: seq<Attempt>) {
    && !Decides(attempts, pc, id)
    && (Late(pc, id) ==> HeldOpen(db, id))
    && (Late(pc, id) && !pc.Deciding? ==> !PassesTimeouts(pc.run))
  }

  ghost predicate QuietInv(s: State, id: Uuid, attempts: seq<Attempt>) {
    && RouteInv(s, id) && PromiseAt(s.db, id)
    && forall c :: c in s.clients ==> QuietClient(s.db, s.clients[c], id, attempts)
  }

  lemma DecidesLater(sha: string -> string, db: Db, pc: Pc, x: Input, id: Uuid, attempts: seq<Attempt>)
    requires Inv(sha, db) && PcInv(sha, db, pc) && Runnable(pc) && db.attempts <= attempts && !Decides(attempts, pc, id)
    ensures !Decides(attempts, Step(sha, db, pc, x).1, id)
  {
    hide Inv, Known, StepDeciding, StepTrying, StepFinishing, StepPolling, StepListDue, StepExpiring, StepInsert;
    hide StepLookup;
    hide StepFetched, StepHave, StepFindAttempt, AttemptsGrow;
    match pc
    case Fetched(held, goal) => FetchedKeepsGoal(sha, db, held, goal, x);
    case Have(held, goal) => HaveLeavesAttempts(db, held, goal, x);
    case Fetch(_, i, goal) => if i in db.payments { RowIsNamed(sha, db, i); }
    case FindAttempt(tenant, a, approves, admin) => FoundIsStored(db, tenant, a, approves, admin, x, attempts);
    case Deciding(held) => DecidingShape(held, x);
    case Trying(run) => TryingGrows(db, run, x);
    case Lookup(c) => LookupIsEarly(sha, db, c, x);
    case ListDue(limit) => ListIsEarly(db, limit, x);
    case Inserting(_, _) => OthersLeaveAttempts(sha, db, pc, x);
    case Finishing(_) => OthersLeaveAttempts(sha, db, pc, x);
    case Polling(_, _) => OthersLeaveAttempts(sha, db, pc, x);
    case Expiring(_, _, _) => OthersLeaveAttempts(sha, db, pc, x);
    case _ =>
  }

  lemma FetchedKeepsGoal(sha: string -> string, db: Db, held: Payment, goal: Goal, x: Input)
    requires Inv(sha, db) && Known(db, held)
    ensures var pc' := StepFetched(db, held, goal, x).1;
      pc'.Done? || (pc'.Have? && pc'.goal == goal && pc'.held.id == held.id)
  {
    hide Inv, Known, ApplyStatus;
    FetchedLeavesAttempts(db, held, goal, x);
    ExpiryOnlyBeforeProcessing(held, x.now);
    ApplyKeeps(sha, db, held, Expired, SystemExpiry, PaymentExpired, x);
  }

  lemma RowIsNamed(sha: string -> string, db: Db, id: Uuid)
    requires Inv(sha, db) && id in db.payments
    ensures db.payments[id].id == id
  {
    assert PaymentOk(db, id);
  }

  lemma FoundIsStored(db: Db, tenant: Uuid, a: Uuid, approves: bool, admin: string, x: Input, attempts: seq<Attempt>)
    requires db.attempts <= attempts
    ensures var pc' := StepFindAttempt(db, tenant, a, approves, admin, x);
      pc'.Done? || (pc'.Fetch? && exists b :: b in attempts && b.id == a && b.payment == pc'.id)
  {
    var found := GetAttempt(db.attempts, tenant, a);
    if found.Some? { assert found.value in attempts; }
  }

  lemma HeldOpenStays(sha: string -> string, s: State, c: nat, x: Input, id: Uuid)
    requires SystemInv(sha, s) && HeldOpen(s.db, id) && c in s.clients && Runnable(s.clients[c])
    ensures var s' := Next(sha, s, Advance(c, x));
      HeldOpen(s'.db, id) || (Concludes(s.db, s.clients[c], x, id) && !s.clients[c].Polling?)
  {
    hide Inv, PcInv, Step, ByReconciler, Concludes;
    var pc := s.clients[c];
    assert PcInv(sha, s.db, pc);
    ReconcilerIff(sha, s.db, pc, x, id);
    StepExtends(sha, s.db, pc, x, id);
    if s.db.payments[id].status == Processing {
      StepLeavesIff(sha, s.db, pc, x, id);
      PollHolds(s.db, pc, x, id);
    }
  }

  /** A call that ends Processing with another status has seen no ambiguous outcome, if it does not pass timeouts. */
  lemma LastCallSawNothingOpen(sha: string -> string, s: State, c: nat, x: Input, id: Uuid)
    requires SystemInv(sha, s) && RouteInv(s, id) && c in s.clients && s.clients[c].Finishing?
    requires id in s.db.payments && Concludes(s.db, s.clients[c], x, id) && !PassesTimeouts(s.clients[c].run)
    ensures !Open(s.db, id) && Late(s.clients[c], id)
  {
    hide Inv, RunFinished, Known, PassesTimeouts, AtMostOneAnswered;
    var run := s.clients[c].run;
    assert PcInv(sha, s.db, s.clients[c]);
    if Open(s.db, id) {
      var a :| a in s.db.attempts && a.payment == id && a.status == AAmbiguous;
      assert a in MadeBy(s.clients[c]);
      FinishedKeepsAmbiguous(run);
    }
  }

  /**
   The only steps that end Processing otherwise than by a poll, in a quiet run: the end of a call with nothing open.
   */
  lemma QuietEnd(sha: string -> string, s: State, c: nat, x: Input, id: Uuid, attempts: seq<Attempt>)
    requires SystemInv(sha, s) && QuietInv(s, id, attempts) && c in s.clients && Runnable(s.clients[c])
    requires id in s.db.payments && Concludes(s.db, s.clients[c], x, id) && !s.clients[c].Polling?
    ensures s.clients[c].Finishing? && Late(s.clients[c], id) && !Open(s.db, id)
  {
    hide SystemInv, RouteInv, PassesTimeouts, PromiseAt;
    assert QuietClient(s.db, s.clients[c], id, attempts);
    assert s.clients[c].Finishing?;
    LastCallSawNothingOpen(sha, s, c, x, id);
  }

  lemma AdvanceKeepsPromise(sha: string -> string, s: State, c: nat, x: Input, id: Uuid, attempts: seq<Attempt>)
    requires SystemInv(sha, s) && QuietInv(s, id, attempts) && c in s.clients && Runnable(s.clients[c])
    ensures PromiseAt(Next(sha, s, Advance(c, x)).db, id)
  {
    hide SystemInv, RouteInv, Step, Open, Concludes, Records, ByReconciler, Decides, PassesTimeouts;
    AdvanceBreaksIff(sha, s, c, x, id);
    if Breaks(s, Advance(c, x), id) {
      assert QuietClient(s.db, s.clients[c], id, attempts);
      if s.db.payments[id].status == Processing {
        QuietEnd(sha, s, c, x, id, attempts);
      } else {
        RecordsIsLate(s.db, s.clients[c], x, id);
      }
    }
  }

  lemma RecordsIsLate(db: Db, pc: Pc, x: Input, id: Uuid)
    requires Runnable(pc) && Records(db, pc, x, id)
    ensures Late(pc, id)
  {
  }

  lemma TimeoutsLater(sha: string -> string, db: Db, pc: Pc, x: Input, id: Uuid)
    requires Runnable(pc) && Late(pc, id) && Late(Step(sha, db, pc, x).1, id)
    requires pc.Deciding? || !PassesTimeouts(pc.run)
    requires pc.Deciding? && StepDeciding(pc.held, x).Trying? ==> !PassesTimeouts(StepDeciding(pc.held, x).run)
    ensures var pc' := Step(sha, db, pc, x).1; !pc'.Deciding? && !PassesTimeouts(pc'.run)
  {
    hide StepDeciding, StepTrying, AllowsFailure, StepFinishing;
    match pc
    case Deciding(held) => DecidingShape(held, x);
    case Trying(run) => TryingGrows(db, run, x);
    case Finishing(run) => OthersLeaveAttempts(sha, db, pc, x);
  }

  lemma AdvancedClientIsQuiet(sha: string -> string, s: State, c: nat, x: Input, id: Uuid, attempts: seq<Attempt>)
    requires SystemInv(sha, s) && QuietInv(s, id, attempts) && c in s.clients && Runnable(s.clients[c])
    requires s.db.attempts <= attempts && QuietEvent(s, Advance(c, x), id, attempts)
    ensures var s' := Next(sha, s, Advance(c, x)); QuietClient(s'.db, s'.clients[c], id, attempts)
  {
    hide Inv, PcInv, Step, RouteInv, Decides, PassesTimeouts, Concludes, HeldOpen, PromiseAt, Enters, StepDeciding;
    var pc := s.clients[c];
    var (db', pc') := Step(sha, s.db, pc, x);
    assert PcInv(sha, s.db, pc) && QuietClient(s.db, pc, id, attempts);
    DecidesLater(sha, s.db, pc, x, id, attempts);
    StepShape(sha, s.db, pc, x, id);
    if Late(pc', id) {
      if Late(pc, id) {
        TimeoutsLater(sha, s.db, pc, x, id);
        HeldOpenStays(sha, s, c, x, id);
        HeldOpenExists(s.db, id);
        if Concludes(s.db, pc, x, id) && !pc.Polling? { StillLateIsNoEnd(sha, s.db, pc, x, id); }
      } else {
        EnteredBy(s.db, db', pc, pc', x);
        EntryIsOpen(sha, s.db, db', pc, pc', x, id);
      }
    }
  }

  lemma StillLateIsNoEnd(sha: string -> string, db: Db, pc: Pc, x: Input, id: Uuid)
    requires Runnable(pc) && id in db.payments && Late(pc, id) && Late(Step(sha, db, pc, x).1, id)
    ensures !Concludes(db, pc, x, id)
  {
    hide ApplyStatus;
  }

  lemma EnteredBy(db: Db, db': Db, pc: Pc, pc': Pc, x: Input)
    requires Enters(db, db', pc, pc', x)
    ensures pc.Have? && pc.goal == Authorize(true)
  {
  }

  lemma EntryIsOpen(sha: string -> string, db: Db, db': Db, pc: Pc, pc': Pc, x: Input, id: Uuid)
    requires Inv(sha, db) && PcInv(sha, db, pc) && Enters(db, db', pc, pc', x) && Late(pc', id)
    requires !(pc.held.id == id && pc.held.status == Processing)
    ensures HeldOpen(db', id) && pc'.Deciding?
  {
    hide Inv, Known, ApplyStatus, ByReconciler;
    if pc.held.status != Processing { EntersFromPending(sha, db, db', pc.held, pc'.held, x); }
  }

  lemma OtherClientIsQuiet(sha: string -> string, s: State, c: nat, x: Input, d: nat, id: Uuid, attempts: seq<Attempt>)
    requires SystemInv(sha, s) && QuietInv(s, id, attempts) && c in s.clients && Runnable(s.clients[c])
    requires d in s.clients && d != c
    ensures QuietClient(Next(sha, s, Advance(c, x)).db, s.clients[d], id, attempts)
  {
    hide SystemInv, Step, Decides, PassesTimeouts, Concludes, HeldOpen, PromiseAt;
    assert QuietClient(s.db, s.clients[d], id, attempts);
    if Late(s.clients[d], id) {
      HeldOpenStays(sha, s, c, x, id);
      HeldOpenExists(s.db, id);
      OneLate(s, c, d, id);
      if Concludes(s.db, s.clients[c], x, id) && !s.clients[c].Polling? {
        QuietEnd(sha, s, c, x, id, attempts);
      }
    }
  }

  lemma OneLate(s: State, c: nat, d: nat, id: Uuid)
    requires RouteInv(s, id) && c in s.clients && d in s.clients && c != d && Late(s.clients[d], id)
    ensures !Late(s.clients[c], id)
  {
  }

  lemma HeldOpenExists(db: Db, id: Uuid)
    requires HeldOpen(db, id)
    ensures id in db.payments
  {
  }

  lemma NextKeepsQuiet(sha: string -> string, s: State, e: Event, id: Uuid, attempts: seq<Attempt>)
    requires SystemInv(sha, s) && QuietInv(s, id, attempts) && QuietEvent(s, e, id, attempts)
        && s.db.attempts <= attempts
    ensures QuietInv(Next(sha, s, e), id, attempts)
  {
    hide SystemInv, RouteInv, Step, PromiseAt, QuietClient, RoutesPastTimeouts, Decides;
    NextKeepsRoute(sha, s, e, id);
    match e
    case Advance(c, x) =>
      if c in s.clients && Runnable(s.clients[c]) {
        AdvanceKeepsPromise(sha, s, c, x, id, attempts);
        AdvancedClientIsQuiet(sha, s, c, x, id, attempts);
        forall d | d in s.clients && d != c
          ensures QuietClient(Next(sha, s, e).db, s.clients[d], id, attempts)
        {
          OtherClientIsQuiet(sha, s, c, x, d, id, attempts);
        }
      }
    case Start(c, program) =>
      if IsStart(program) { StartIsQuiet(s.db, program, id, attempts); }
  }

  lemma StartIsQuiet(db: Db, program: Pc, id: Uuid, attempts: seq<Attempt>)
    requires IsStart(program) && !Decides(attempts, program, id)
    ensures QuietClient(db, program, id, attempts)
  {
  }

  lemma {:induction false} RunKeepsQuiet(sha: string -> string, events: seq<Event>, n: nat, id: Uuid,
      attempts: seq<Attempt>)
    requires n <= |events| && QuietRun(sha, events, id, attempts) && Run(sha, events).db.attempts <= attempts
    ensures QuietInv(Run(sha, events[..n]), id, attempts)
  {
    hide QuietInv, QuietEvent, SystemInv, Next, Extends;
    if n == 0 {
      NothingQuiet(id, attempts);
    } else {
      var before := events[..n - 1];
      RunKeepsQuiet(sha, events, n - 1, id, attempts);
      Reachable(sha, before);
      RunExtends(sha, events, n - 1);
      ExtendedAttempts(Run(sha, before).db, Run(sha, events).db);
      NextKeepsQuiet(sha, Run(sha, before), events[n - 1], id, attempts);
      assert events[..n][..n - 1] == before;
    }
  }

  lemma ExtendedAttempts(db: Db, db': Db)
    requires Extends(db, db')
    ensures db.attempts <= db'.attempts
  {
  }

  lemma NothingQuiet(id: Uuid, attempts: seq<Attempt>)
    ensures QuietInv(INITIAL, id, attempts)
  {
  }

  /**
   In every run in which nobody rejects the payment or decides one of its attempts, no approving call goes on after
   finding it already Processing, and it is routed only under policies that stop at a timeout: from the first ambiguous
   outcome on the payment stays in Processing until the reconciler writes its status, however all the rest interleaves.
   */
  lemma AmbiguousStaysUntilReconciled(sha: string -> string, events: seq<Event>, id: Uuid)
    requires QuietRun(sha, events, id, Run(sha, events).db.attempts)
    ensures PromiseKept(sha, events, id)
  {
    hide QuietInv, QuietRun, PromiseAt, Run;
    forall n | 0 <= n <= |events| ensures PromiseAt(Run(sha, events[..n]).db, id) {
      RunKeepsQuiet(sha, events, n, id, Run(sha, events).db.attempts);
      QuietKeeps(Run(sha, events[..n]), id, Run(sha, events).db.attempts);
    }
  }

  lemma QuietKeeps(s: State, id: Uuid, attempts: seq<Attempt>)
    requires QuietInv(s, id, attempts)
    ensures PromiseAt(s.db, id)
  {
  }
}
