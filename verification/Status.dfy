/** The payment state machine and the mapping from connector answers onto it. */
module Status {
  import opened Wrappers

  datatype PaymentStatus =
    | Created | Pending | RequiresAction | Authorized | Processing | Settled
    | Failed | Cancelled | Expired | RefundPending | Refunded | PartiallyRefunded

  datatype AttemptStatus =
    | ACreated | ARequiresAction | AProcessing | AAuthorized | ASettled
    | AFailed | ACancelled | AExpired | AAmbiguous

  datatype PaymentMethod = AccountToAccount | Card | Wallet | Manual

  function AllowedTargets(s: PaymentStatus): set<PaymentStatus> {
    match s
    case Created => {Pending}
    case Pending => {RequiresAction, Processing, Failed, Cancelled, Expired}
    case RequiresAction => {Processing, Failed, Cancelled, Expired}
    case Processing => {Authorized, Settled, Failed}
    case Authorized => {Settled, Failed, Cancelled}
    case Settled => {RefundPending, PartiallyRefunded, Refunded}
    case RefundPending => {Refunded, PartiallyRefunded, Failed}
    case PartiallyRefunded => {Refunded, RefundPending}
    case Failed | Cancelled | Expired | Refunded => {}
  }

  predicate CanTransition(from: PaymentStatus, to: PaymentStatus) {
    to in AllowedTargets(from)
  }

  /** A status may stay as it is or follow an edge. */
  predicate Legal(from: PaymentStatus, to: PaymentStatus) {
    from == to || CanTransition(from, to)
  }

  predicate IsTerminal(s: PaymentStatus) {
    s in {Failed, Cancelled, Expired, Refunded}
  }

  predicate IsSettledFamily(s: PaymentStatus) {
    s in {Settled, RefundPending, Refunded, PartiallyRefunded}
  }

  /** The event types; `EventName` is the text that travels. */
  datatype EventType =
    | PaymentCreated | PaymentRequiresAction | PaymentProcessing | PaymentAuthorized | PaymentSettled
    | PaymentFailed | PaymentCancelled | PaymentExpired | PaymentRefunded

  function EventName(e: EventType): string {
    match e
    case PaymentCreated => "payment.created"
    case PaymentRequiresAction => "payment.requires_action"
    case PaymentProcessing => "payment.processing"
    case PaymentAuthorized => "payment.authorized"
    case PaymentSettled => "payment.settled"
    case PaymentFailed => "payment.failed"
    case PaymentCancelled => "payment.cancelled"
    case PaymentExpired => "payment.expired"
    case PaymentRefunded => "payment.refunded"
  }

  function WebhookEvent(s: PaymentStatus): Option<EventType> {
    match s
    case Created => Some(PaymentCreated)
    case RequiresAction => Some(PaymentRequiresAction)
    case Processing | Pending => Some(PaymentProcessing)
    case Authorized => Some(PaymentAuthorized)
    case Settled => Some(PaymentSettled)
    case Failed => Some(PaymentFailed)
    case Cancelled => Some(PaymentCancelled)
    case Expired => Some(PaymentExpired)
    case Refunded | PartiallyRefunded => Some(PaymentRefunded)
    case RefundPending => None
  }

  /** `webhook_event().unwrap_or("payment.processing")` */
  function EventFor(s: PaymentStatus): EventType {
    match WebhookEvent(s)
    case Some(e) => e
    case None => PaymentProcessing
  }

  function IntoPaymentStatus(a: AttemptStatus): PaymentStatus {
    match a
    case ACreated => Pending
    case ARequiresAction => RequiresAction
    case AProcessing => Processing
    case AAuthorized => Authorized
    case ASettled => Settled
    case AFailed => Failed
    case ACancelled => Cancelled
    case AExpired => Expired
    case AAmbiguous => Processing
  }

  // ----- What the service, as opposed to the raw machine, can visit -----

  /** The statuses a service run starting at Pending visits. */
  predicate Visited(s: PaymentStatus) {
    s in {Pending, Processing, Authorized, Settled, Failed, Cancelled, Expired, Refunded}
  }

  /** A measure that every real change of a visited status raises. */
  function Rank(s: PaymentStatus): (r: nat)
    ensures r <= 4
  {
    match s
    case Processing => 1
    case Authorized => 2
    case Settled => 3
    case Failed | Cancelled | Expired | Refunded => 4
    case _ => 0
  }

  lemma ChangeRaisesRank(from: PaymentStatus, to: PaymentStatus)
    requires Visited(from) && Visited(to) && CanTransition(from, to)
    ensures Rank(from) < Rank(to)
  {
  }

  /** Statuses that can follow Processing; none of them is Pending, RequiresAction or Expired. */
  predicate AfterProcessing(s: PaymentStatus) {
    s !in {Created, Pending, RequiresAction, Expired}
  }

  lemma AfterProcessingClosed(from: PaymentStatus, to: PaymentStatus)
    requires AfterProcessing(from) && Legal(from, to)
    ensures AfterProcessing(to)
  {
  }

  /** The raw machine has a refund cycle, so without the service there is no bound on changes. */
  lemma RawMachineCycles()
    ensures CanTransition(RefundPending, PartiallyRefunded) && CanTransition(PartiallyRefunded, RefundPending)
    ensures CanTransition(RefundPending, Failed)
  {
  }
}
