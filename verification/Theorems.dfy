/** What holds in every run of the payment system, for any interleaving and any connector answers. */
module Theorems {
  import opened Wrappers
  import opened Ids
  import opened Status
  import opened Rows
  import opened Store
  import opened Machine
  import opened Ledger
  import opened System

  // ----- One story per payment -----

  /** Row, audit log and outbox agree: an unbroken chain ending at the row's status, one row of each per version. */
  lemma LedgerAgrees(sha: string -> string, events: seq<Event>, id: Uuid)
    requires id in Run(sha, events).db.payments
    ensures var db := Run(sha, events).db;
      PaymentInv(db.payments[id], AuditTrail(db.audit, id), OutboxTrail(db.outbox, id))
  {
    Reachable(sha, events);
    assert PaymentOk(Run(sha, events).db, id);
  }

  /** The number of times a payment really changed its status. */
  function Changes(t: seq<AuditEvent>): nat {
    if |t| <= 1 then 0
    else Changes(t[..|t| - 1]) + if StatusAfter(t[|t| - 1]) != StatusAfter(t[|t| - 2]) then 1 else 0
  }

  lemma ChainPrefix(t: seq<AuditEvent>, n: nat)
    requires Chain(t) && 0 < n <= |t|
    ensures Chain(t[..n])
  {
    forall i | 0 < i < n ensures Link(t[..n], i) { assert Link(t, i); }
  }

  lemma {:induction false} ChangesBoundedByRank(t: seq<AuditEvent>)
    requires Chain(t) && forall i :: 0 <= i < |t| ==> Visited(StatusAfter(t[i]))
    ensures Changes(t) <= Rank(StatusAfter(t[|t| - 1]))
  {
    var n := |t|;
    if n > 1 {
      ChainPrefix(t, n - 1);
      ChangesBoundedByRank(t[..n - 1]);
      assert Link(t, n - 1);
      var from, to := StatusAfter(t[n - 2]), StatusAfter(t[n - 1]);
      if from != to { ChangeRaisesRank(from, to); }
    }
  }

  /** A payment only visits the eight service statuses and changes status at most four times. */
  lemma AtMostFourChanges(sha: string -> string, events: seq<Event>, id: Uuid)
    requires id in Run(sha, events).db.payments
    ensures var db := Run(sha, events).db;
      && Visited(db.payments[id].status)
      && Changes(AuditTrail(db.audit, id)) <= 4
  {
    hide Run, AuditTrail, OutboxTrail, PaymentInv, Changes;
    LedgerAgrees(sha, events, id);
    var db := Run(sha, events).db;
    TrailIsVisited(db.payments[id], AuditTrail(db.audit, id), OutboxTrail(db.outbox, id));
    ChangesBoundedByRank(AuditTrail(db.audit, id));
  }

  lemma TrailIsVisited(p: Payment, t: seq<AuditEvent>, o: seq<OutboxRecord>)
    requires PaymentInv(p, t, o)
    ensures Chain(t) && p.status == StatusAfter(t[|t| - 1]) && Visited(p.status)
    ensures forall i :: 0 <= i < |t| ==> Visited(StatusAfter(t[i]))
  {
    hide Visited, Chain;
    forall i | 0 <= i < |t| ensures Visited(StatusAfter(t[i])) { assert RowFits(p, t, o, i); }
    assert t != [] by { ChainStarts(t); }
  }

  lemma ChainStarts(t: seq<AuditEvent>)
    requires Chain(t)
    ensures t != []
  {
  }

  lemma {:induction false} SettledStays(t: seq<AuditEvent>, i: nat, j: nat)
    requires Chain(t) && i <= j < |t| && forall k :: 0 <= k < |t| ==> Visited(StatusAfter(t[k]))
    requires StatusAfter(t[i]) in {Settled, Refunded}
    ensures StatusAfter(t[j]) in {Settled, Refunded}
  {
    if i < j {
      SettledStays(t, i, j - 1);
      assert Link(t, j);
    }
  }

  /** Once Settled, a payment is only ever Settled or Refunded. */
  lemma OnceSettled(sha: string -> string, events: seq<Event>, id: Uuid, i: nat)
    requires id in Run(sha, events).db.payments && i < |AuditTrail(Run(sha, events).db.audit, id)|
    requires StatusAfter(AuditTrail(Run(sha, events).db.audit, id)[i]) == Settled
    ensures Run(sha, events).db.payments[id].status in {Settled, Refunded}
  {
    hide Run, AuditTrail, OutboxTrail, PaymentInv;
    LedgerAgrees(sha, events, id);
    var db := Run(sha, events).db;
    var t := AuditTrail(db.audit, id);
    TrailIsVisited(db.payments[id], t, OutboxTrail(db.outbox, id));
    SettledStays(t, i, |t| - 1);
  }

  lemma {:induction false} ChainAfterProcessing(t: seq<AuditEvent>, i: nat, j: nat)
    requires Chain(t) && i <= j < |t| && StatusAfter(t[i]) == Processing
    ensures AfterProcessing(StatusAfter(t[j]))
  {
    if i < j {
      ChainAfterProcessing(t, i, j - 1);
      assert Link(t, j);
      AfterProcessingClosed(StatusAfter(t[j - 1]), StatusAfter(t[j]));
    }
  }

  /** A payment that has an attempt is never Pending and never Expired. */
  lemma AttemptsExcludeExpiry(sha: string -> string, events: seq<Event>, a: Attempt)
    requires a in Run(sha, events).db.attempts
    ensures a.payment in Run(sha, events).db.payments
    ensures AfterProcessing(Run(sha, events).db.payments[a.payment].status)
  {
    Reachable(sha, events);
    AttemptMeansProcessed(Run(sha, events).db, a);
  }

  lemma RowStatus(db: Db, id: Uuid)
    requires LedgerInv(db) && id in db.payments
    ensures var t := AuditTrail(db.audit, id);
      Chain(t) && StatusAfter(t[|t| - 1]) == db.payments[id].status
  {
    assert PaymentOk(db, id);
  }

  lemma AttemptMeansProcessed(db: Db, a: Attempt)
    requires LedgerInv(db) && AttemptOk(db, a)
    ensures AfterProcessing(db.payments[a.payment].status)
  {
    hide LedgerInv, AfterProcessing;
    RowStatus(db, a.payment);
    var t := AuditTrail(db.audit, a.payment);
    var i :| 0 <= i < |t| && StatusAfter(t[i]) == Processing;
    ChainAfterProcessing(t, i, |t| - 1);
  }

  lemma {:induction false} TrailHas(audit: seq<AuditEvent>, a: AuditEvent) returns (i: nat)
    requires a in audit
    ensures i < |AuditTrail(audit, a.payment)| && AuditTrail(audit, a.payment)[i] == a
  {
    var n := |audit| - 1;
    if audit[n] == a {
      i := |AuditTrail(audit[..n], a.payment)|;
    } else {
      i := TrailHas(audit[..n], a);
    }
  }

  /**
   No audit row blames an actor for a status that actor cannot write: only the system expires, only merchants cancel or
   refund.
   */
  lemma AuditNamesTheActor(sha: string -> string, events: seq<Event>, a: AuditEvent)
    requires a in Run(sha, events).db.audit
    ensures ActorMay(a.actor, StatusAfter(a)) && Visited(StatusAfter(a))
  {
    hide ActorMay, Visited;
    Reachable(sha, events);
    var db := Run(sha, events).db;
    var i := TrailHas(db.audit, a);
    assert PaymentOk(db, a.payment);
    assert RowFits(db.payments[a.payment], AuditTrail(db.audit, a.payment), OutboxTrail(db.outbox, a.payment), i);
  }

  // ----- Optimistic locking -----

  /** The snapshot a program position writes with. */
  function HeldBy(pc: Pc): Option<Payment> {
    match pc
    case Fetched(p, _) => Some(p)
    case Have(p, _) => Some(p)
    case Finishing(run) => Some(run.payment)
    case Polling(p, _) => Some(p)
    case Expiring(due, _, _) => if due == [] then None else Some(due[0])
    case _ => None
  }

  /** `db'` differs from `db` by one version of the payment of `held`, which must be current. */
  predicate OneCommit(db: Db, db': Db, held: Payment) {
    && held.id in db.payments && db.payments[held.id].version == held.version
    && held.id in db'.payments && db'.payments[held.id].version == held.version + 1
    && db'.payments == db.payments[held.id := db'.payments[held.id]]
  }

  predicate Touches(db: Db, db': Db, held: Payment) {
    db'.payments == db.payments || OneCommit(db, db', held)
  }

  lemma ApplyCommits(db: Db, held: Payment, next: PaymentStatus, actor: Actor, event: EventType, x: Input)
    ensures var (db', r) := ApplyStatus(db, held, next, actor, event, x);
      Touches(db, db', held) && (!r.Ok? ==> db' == db)
  {
  }

  lemma FinishCommits(db: Db, held: Payment, next: PaymentStatus, actor: Actor, event: EventType, x: Input)
    ensures Touches(db, ApplyAndFinish(db, held, next, actor, event, x).0, held)
  {
    hide ApplyStatus, OneCommit;
    ApplyCommits(db, held, next, actor, event, x);
  }

  lemma FetchedCommits(db: Db, held: Payment, goal: Goal, x: Input)
    ensures Touches(db, StepFetched(db, held, goal, x).0, held)
  {
    hide ApplyStatus, ApplyAndFinish, OneCommit;
    match goal
    case Cancel(actor) => FinishCommits(db, held, Cancelled, Merchant(actor), PaymentCancelled, x);
    case Refund(actor) => FinishCommits(db, held, Refunded, Merchant(actor), PaymentRefunded, x);
    case _ =>
      ExpiryOnlyBeforeProcessing(held, x.now);
      ApplyCommits(db, held, Expired, SystemExpiry, PaymentExpired, x);
  }

  lemma HaveCommits(db: Db, held: Payment, goal: Goal, x: Input)
    ensures Touches(db, StepHave(db, held, goal, x).0, held)
  {
    hide ApplyStatus, ApplyAndFinish, OneCommit, ListAttempts;
    match goal
    case Authorize(_) =>
      FinishCommits(db, held, Failed, DemoWallet, PaymentFailed, x);
      ApplyCommits(db, held, Processing, DemoWallet, PaymentProcessing, x);
    case Resolve(_, admin) =>
      FinishCommits(db, held, Settled, Admin(admin), PaymentSettled, x);
      FinishCommits(db, held, Failed, Admin(admin), PaymentFailed, x);
    case _ =>
  }

  lemma FinishingCommits(db: Db, run: AuthorizeRun, x: Input)
    ensures Touches(db, StepFinishing(db, run, x).0, run.payment)
  {
    hide ApplyStatus, OneCommit;
    ApplyCommits(db, run.payment, run.lastStatus, Connector(run.lastKey), EventFor(run.lastStatus), x);
  }

  lemma PollingCommits(db: Db, held: Payment, x: Input)
    ensures Touches(db, StepPolling(db, held, x).0, held)
  {
    hide ApplyAndFinish, OneCommit;
    if x.fetched.Fetches? {
      var next := IntoPaymentStatus(x.fetched.status);
      FinishCommits(db, held, next, ReconcilerWorker, EventFor(next), x);
    }
  }

  lemma ExpiringCommits(db: Db, due: seq<Payment>, asOf: int, n: nat, x: Input)
    requires due != []
    ensures Touches(db, StepExpiring(db, due, asOf, n, x).0, due[0])
  {
    hide ApplyStatus, OneCommit;
    ExpiryOnlyBeforeProcessing(due[0], asOf);
    ApplyCommits(db, due[0], Expired, SystemExpiry, PaymentExpired, x);
  }

  /** A step touches existing payments only by one commit from a current snapshot. */
  lemma StepCommits(sha: string -> string, db: Db, pc: Pc, x: Input)
    requires Runnable(pc) && !pc.Inserting?
    ensures var db' := Step(sha, db, pc, x).0;
      db'.payments == db.payments || (HeldBy(pc).Some? && OneCommit(db, db', HeldBy(pc).value))
  {
    hide OneCommit, StepLookup, StepFetched, StepHave, StepDeciding, StepFinishing, StepPolling, StepListDue;
    hide StepExpiring;
    match pc
    case Fetched(held, goal) => FetchedCommits(db, held, goal, x);
    case Have(held, goal) => HaveCommits(db, held, goal, x);
    case Finishing(run) => FinishingCommits(db, run, x);
    case Polling(held, _) => PollingCommits(db, held, x);
    case Expiring(due, asOf, n) =>
      if due != [] { ExpiringCommits(db, due, asOf, n, x); } else { EmptyBatch(db, asOf, n, x); }
    case _ =>
  }

  lemma EmptyBatch(db: Db, asOf: int, n: nat, x: Input)
    ensures StepExpiring(db, [], asOf, n, x).0 == db
  {
  }

  lemma StepSeparate(sha: string -> string, db: Db, pc: Pc, x: Input, id: Uuid)
    requires Runnable(pc) && id in db.payments
    ensures var db' := Step(sha, db, pc, x).0;
      && id in db'.payments
      && (db'.payments[id].version != db.payments[id].version ==>
            db'.payments[id].version == db.payments[id].version + 1
            && HeldBy(pc).Some? && HeldBy(pc).value.id == id && HeldBy(pc).value.version == db.payments[id].version)
      && (db'.payments[id].version == db.payments[id].version ==> db'.payments[id] == db.payments[id])
  {
    hide StepLookup, StepFetched, StepHave, StepDeciding, StepTrying, StepFinishing, StepPolling, StepListDue;
    hide StepExpiring;
    if !pc.Inserting? { StepCommits(sha, db, pc, x); }
  }

  /** Whether event `i` of the run committed a change of payment `id`. */
  ghost predicate Commits(sha: string -> string, events: seq<Event>, i: nat, id: Uuid)
    requires i < |events|
  {
    && id in Run(sha, events[..i]).db.payments
    && id in Run(sha, events[..i + 1]).db.payments
    && Run(sha, events[..i + 1]).db.payments[id] != Run(sha, events[..i]).db.payments[id]
  }

  lemma CommitNeedsCurrentSnapshot(sha: string -> string, events: seq<Event>, i: nat, id: Uuid)
    requires i < |events| && Commits(sha, events, i, id)
    ensures var s := Run(sha, events[..i]);
      && events[i].Advance? && events[i].client in s.clients
      && HeldBy(s.clients[events[i].client]).Some?
      && HeldBy(s.clients[events[i].client]).value.id == id
      && HeldBy(s.clients[events[i].client]).value.version == s.db.payments[id].version
      && Run(sha, events[..i + 1]).db.payments[id].version == s.db.payments[id].version + 1
  {
    hide Step, HeldBy;
    var s := Run(sha, events[..i]);
    assert events[..i + 1][..i] == events[..i];
    var e := events[i];
    assert Run(sha, events[..i + 1]) == Next(sha, s, e);
    if e.Advance? && e.client in s.clients && Runnable(s.clients[e.client]) {
      StepSeparate(sha, s.db, s.clients[e.client], e.input, id);
    }
  }

  lemma {:induction false} VersionsGrow(sha: string -> string, events: seq<Event>, n: nat, id: Uuid)
    requires n <= |events| && id in Run(sha, events[..n]).db.payments
    ensures id in Run(sha, events).db.payments
    ensures Run(sha, events[..n]).db.payments[id].version <= Run(sha, events).db.payments[id].version
  {
    hide Step, HeldBy, Next;
    if n == |events| {
      assert events[..n] == events;
    } else {
      var before := events[..|events| - 1];
      assert before[..n] == events[..n];
      VersionsGrow(sha, before, n, id);
      NextSeparate(sha, Run(sha, before), events[|events| - 1], id);
    }
  }

  lemma NextSeparate(sha: string -> string, s: State, e: Event, id: Uuid)
    requires id in s.db.payments
    ensures id in Next(sha, s, e).db.payments
    ensures s.db.payments[id].version <= Next(sha, s, e).db.payments[id].version
  {
    hide Step, HeldBy;
    if e.Advance? && e.client in s.clients && Runnable(s.clients[e.client]) {
      StepSeparate(sha, s.db, s.clients[e.client], e.input, id);
    }
  }

  /** Of all the writes attempted from snapshots with one version of a payment, at most one commits. */
  lemma OneCommitPerVersion(sha: string -> string, events: seq<Event>, i: nat, j: nat, id: Uuid)
    requires i < j < |events| && Commits(sha, events, i, id) && Commits(sha, events, j, id)
    ensures Run(sha, events[..i]).db.payments[id].version < Run(sha, events[..j]).db.payments[id].version
  {
    CommitNeedsCurrentSnapshot(sha, events, i, id);
    assert events[..j][..i + 1] == events[..i + 1];
    VersionsGrow(sha, events[..j], i + 1, id);
  }

  /** A refused operation has changed nothing in the step that refused it. */
  lemma RefusalChangesNothing(sha: string -> string, db: Db, pc: Pc, x: Input)
    requires Runnable(pc) && !pc.Done?
    requires Step(sha, db, pc, x).1.Done? && Step(sha, db, pc, x).1.outcome.Refused?
    ensures Step(sha, db, pc, x).0 == db
  {
  }
}
