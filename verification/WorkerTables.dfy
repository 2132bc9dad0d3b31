/** The tables the worker reads and writes, and the circuit breaker. Row identity is the position in the table. */
module WorkerTables {
  import opened Wrappers
  import opened Text
  import opened Ids
  import opened Status
  import opened Rows

  /** An outbox row as the worker sees it: ids and the event type as text, the merchant from the payload if any. */
  datatype OutboxRow = OutboxRow(
    id: string, tenant: Uuid, eventType: string, merchantId: Option<string>, createdAt: int, publishedAt: Option<int>)

  datatype Endpoint = Endpoint(
    tenant: Uuid, merchant: Uuid, eventTypes: seq<string>, active: bool, failureCount: int, updatedAt: int)

  datatype DeliveryStatus = DPending | Delivered | Retrying | DeadLettered

  datatype Delivery = Delivery(
    endpoint: nat, event: Uuid, status: DeliveryStatus, attempts: int, nextRetryAt: Option<int>,
    responseCode: Option<int>, createdAt: int, updatedAt: int)

  datatype Tables = Tables(outbox: seq<OutboxRow>, deliveries: seq<Delivery>, endpoints: seq<Endpoint>)

  /** How `payment_outbox_with_status` prints a record. */
  function Printed(r: OutboxRecord): OutboxRow {
    OutboxRow(AsPrefixed(EVENT, r.id), r.tenant, EventName(r.eventType), Some(AsPrefixed(MERCHANT, r.merchant)),
        r.createdAt, None)
  }

  // ----- Circuit breaker -----

  const CIRCUIT_THRESHOLD: int := 20
  const CIRCUIT_COOLDOWN: int := 60 * SECOND

  datatype CircuitState = Closed | Open | HalfOpen

  function Circuit(failureCount: int, lastUpdated: int, now: int): CircuitState {
    if failureCount < CIRCUIT_THRESHOLD then Closed
    else if now - lastUpdated >= CIRCUIT_COOLDOWN then HalfOpen
    else Open
  }

  // ----- Fan-out -----

  function MerchantOf(row: OutboxRow): Option<Uuid> {
    if row.merchantId.None? then None
    else match ParsePrefixed(MERCHANT, row.merchantId.value)
      case Ok(m) => Some(m)
      case Err(_) => None
  }

  /** `list_endpoints` for the row's tenant and merchant, filtered by subscription. */
  predicate Wants(row: OutboxRow, e: Endpoint) {
    && MerchantOf(row) == Some(e.merchant)
    && e.tenant == row.tenant
    && e.active
    && (e.eventTypes == [] || row.eventType in e.eventTypes)
  }

  function EventOf(row: OutboxRow, other: Uuid): Uuid {
    match ParsePrefixed(EVENT, row.id)
    case Ok(id) => id
    case Err(_) => other
  }

  function NewDelivery(row: OutboxRow, e: nat, other: Uuid, now: int): Delivery {
    Delivery(e, EventOf(row, other), DPending, 0, Some(now), None, now, now)
  }

  /** A printed record keeps its event id and its merchant; the fresh-id fallback is never taken. */
  lemma PrintedKeepsIds(r: OutboxRecord, other: Uuid)
    ensures EventOf(Printed(r), other) == r.id
    ensures MerchantOf(Printed(r)) == Some(r.merchant)
  {
    PrefixedRoundTrip(EVENT, r.id);
    PrefixedRoundTrip(MERCHANT, r.merchant);
  }

  /** The texts themselves. */
  lemma PrintedTexts(r: OutboxRecord)
    ensures Printed(r).id == "evt_" + HexEncode(r.id.bytes)
    ensures Printed(r).merchantId == Some("mch_" + HexEncode(r.merchant.bytes))
    ensures Printed(r).tenant == r.tenant && Printed(r).createdAt == r.createdAt && Printed(r).publishedAt.None?
  {
    hide HexEncode;
    assert "evt" + "_" == "evt_" && "mch" + "_" == "mch_";
  }

  // ----- Batches -----

  function CreatedAt(row: OutboxRow): int { row.createdAt }

  function Unpublished(outbox: seq<OutboxRow>): (r: seq<OutboxRow>)
    ensures forall row :: row in r <==> row in outbox && row.publishedAt.None?
  {
    if outbox == [] then []
    else (if outbox[0].publishedAt.None? then [outbox[0]] else []) + Unpublished(outbox[1..])
  }

  function Take<T>(s: seq<T>, n: nat): (r: seq<T>)
    ensures r <= s && |r| <= n && (|r| == n || r == s)
  {
    if |s| <= n then s else s[..n]
  }
}
