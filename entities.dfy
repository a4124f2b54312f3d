/** Rows, messages and outcomes shared by the Orders and Payments services. */
module Entities {

  /** A Guid. Fresh ones come from a per-store counter instead of Guid.NewGuid. */
  type Guid = nat

  /** A reading of the UTC clock; a larger value is a later instant. */
  type Instant = nat

  /** A money amount in hundredths: the stores keep money as numeric(18,2). */
  type Cents = int

  /** A numeric(18,2) column holds at most 18 digits, so fewer than 10^18 hundredths either way. */
  const MoneyLimit: int := 1_000_000_000_000_000_000

  predicate MoneyFits(c: Cents)
  {
    -MoneyLimit < c < MoneyLimit
  }

  datatype Option<T> = None | Some(value: T)

  /** The `Type` tag of an outbox row is the name of the event it carries. */
  const OrderPaymentRequestedType: string := "OrderPaymentRequested"
  const OrderPaymentStatusChangedType: string := "OrderPaymentStatusChanged"

  datatype OrderStatus = New | Finished | Cancelled

  /** Enum.ToString of an order status, as sent to subscribers. */
  function StatusName(s: OrderStatus): string
  {
    match s
    case New => "New"
    case Finished => "Finished"
    case Cancelled => "Cancelled"
  }

  datatype Order = Order(
    id: Guid,
    userId: Guid,
    amount: Cents,
    description: string,
    status: OrderStatus,
    createdAt: Instant,
    updatedAt: Option<Instant>,
    version: nat)

  datatype PaymentStatus = Success | Failed

  /** Sent by Orders to ask Payments to settle an order. */
  datatype OrderPaymentRequested = OrderPaymentRequested(
    messageId: Guid,
    orderId: Guid,
    userId: Guid,
    amount: Cents,
    createdAt: Instant)

  /** Sent by Payments with the result of a payment attempt. */
  datatype OrderPaymentStatusChanged = OrderPaymentStatusChanged(
    messageId: Guid,
    orderId: Guid,
    userId: Guid,
    status: PaymentStatus,
    reason: Option<string>,
    occurredAt: Instant)

  /** The payload of an outbox row: the event itself rather than its JSON text. */
  datatype Payload =
    | PaymentRequested(request: OrderPaymentRequested)
    | PaymentStatusChanged(change: OrderPaymentStatusChanged)

  datatype OutboxMessage = OutboxMessage(
    id: Guid,
    msgType: string,
    payload: Payload,
    createdAt: Instant,
    processedAt: Option<Instant>,
    attempt: int,
    error: Option<string>)

  datatype Account = Account(id: Guid, userId: Guid, createdAt: Instant)

  datatype AccountBalance = AccountBalance(accountId: Guid, balance: Cents, version: nat)

  /** One ledger entry; top-ups have no order, debits carry the order they pay for. */
  datatype AccountTransaction = AccountTransaction(
    id: Guid,
    accountId: Guid,
    orderId: Option<Guid>,
    delta: Cents,
    createdAt: Instant)

  datatype InboxMessage = InboxMessage(
    id: Guid,
    messageId: Guid,
    msgType: string,
    payload: OrderPaymentRequested,
    receivedAt: Instant,
    processedAt: Option<Instant>,
    error: Option<string>,
    attempt: int)

  /** How a SaveChangesAsync call ended: committed, a row-version conflict, or a write the store refused. */
  datatype SaveResult = Saved | Conflict | Rejected

  /** The exceptions the core lets escape, as values. */
  datatype Fault =
    | ConcurrencyConflict                 // DbUpdateConcurrencyException
    | StoreRejected                       // DbUpdateException: a key, index or column limit refused the write
    | InvalidArgument(message: string)    // ArgumentException
    | InvalidOperation(message: string)   // InvalidOperationException

  /** Either the value an operation returned or the exception it threw. */
  datatype Outcome<T> = Ok(value: T) | Threw(fault: Fault)
}
