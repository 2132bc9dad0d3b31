/** The rows of the payment tables. Times are nanoseconds; only their order and differences matter. */
module Rows {
  import opened Wrappers
  import opened Ids
  import opened Status

  const SECOND: int := 1_000_000_000

  datatype Payment = Payment(
    id: Uuid, tenant: Uuid, merchant: Uuid, orderId: string, amount: int, currency: string,
    status: PaymentStatus, methods: seq<PaymentMethod>, expiresAt: int, idempotencyKey: string,
    version: int, createdAt: int, updatedAt: int)

  /** Everything about a payment that is fixed when it is created. */
  predicate SameFacts(p: Payment, q: Payment) {
    p.(status := q.status, version := q.version, updatedAt := q.updatedAt) == q
  }

  predicate IsExpired(p: Payment, now: int) {
    now >= p.expiresAt && !IsTerminal(p.status) && !IsSettledFamily(p.status)
  }

  function ExpiryTarget(p: Payment, now: int): Option<PaymentStatus> {
    if !IsExpired(p, now) then None
    else if CanTransition(p.status, Expired) then Some(Expired)
    else None
  }

  datatype Attempt = Attempt(
    id: Uuid, tenant: Uuid, payment: Uuid, connectorKey: string, providerReference: Option<string>,
    status: AttemptStatus, failureCode: Option<string>, createdAt: int)

  datatype AuditMeta =
    | CreatedMeta(orderId: string, amount: int, currency: string)
    | ChangeMeta(from: PaymentStatus, to: PaymentStatus)

  /** The pairs of actor type and actor id that occur. */
  datatype Actor =
    | SystemExpiry | DemoWallet | Merchant(id: string) | Connector(key: string) | ReconcilerWorker | Admin(id: string)

  datatype AuditEvent = AuditEvent(
    tenant: Uuid, payment: Uuid, actor: Actor, eventType: EventType, meta: AuditMeta, occurredAt: int)

  /** The status a payment has once the row is written. */
  function StatusAfter(a: AuditEvent): PaymentStatus {
    match a.meta
    case CreatedMeta(_, _, _) => Pending
    case ChangeMeta(_, to) => to
  }

  /** An outbox row; status, merchant, order id, amount and currency are its payload. */
  datatype OutboxRecord = OutboxRecord(
    id: Uuid, tenant: Uuid, payment: Uuid, eventType: EventType, status: PaymentStatus,
    merchant: Uuid, orderId: string, amount: int, currency: string, createdAt: int)

  function PaymentOutbox(p: Payment, eventType: EventType, status: PaymentStatus, eventId: Uuid,
        now: int): OutboxRecord {
    OutboxRecord(eventId, p.tenant, p.id, eventType, status, p.merchant, p.orderId, p.amount, p.currency, now)
  }

  datatype IdempotencyRow = IdempotencyRow(tenant: Uuid, key: string, fingerprint: string, payment: Uuid)

  datatype CreateCommand = CreateCommand(
    tenant: Uuid, merchant: Uuid, orderId: string, amount: int, currency: string,
    methods: seq<PaymentMethod>, expiresInSeconds: nat, idempotencyKey: string)

  /** What the constructors of `MerchantOrderId`, `AmountMinor`, `Currency` and `IdempotencyKey` guarantee. */
  predicate WellFormed(c: CreateCommand) {
    && 0 < |c.orderId| <= 128
    && c.amount > 0
    && |c.currency| == 3
    && 0 < |c.idempotencyKey| <= 128
  }

  /** The PaymentRequest object of `payment.rs`: a row loaded into memory and changed in place. */
  class PaymentRequest {
    var row: Payment

    constructor (row: Payment)
      ensures this.row == row
    {
      this.row := row;
    }

    /** An illegal edge changes nothing; anything else moves the status and bumps the version. */
    method Transition(next: PaymentStatus, now: int) returns (ok: bool)
      modifies this
      ensures ok == Legal(old(row.status), next)
      ensures row == if ok
                     then old(row).(status := next, updatedAt := now, version := old(row.version) + 1)
                     else old(row)
    {
      if row.status == next {
        ok := true;
      } else {
        ok := CanTransition(row.status, next);
      }
      if ok {
        row := row.(status := next, updatedAt := now, version := row.version + 1);
      }
    }
  }

  /** Expiry never steals a payment that is being processed or already settled. */
  lemma ExpiryOnlyBeforeProcessing(p: Payment, now: int)
    ensures ExpiryTarget(p, now) == Some(Expired) <==> now >= p.expiresAt && p.status in {Pending, RequiresAction}
    ensures ExpiryTarget(p, now).Some? ==> ExpiryTarget(p, now).value == Expired
  {
  }
}
