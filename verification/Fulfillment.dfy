/** The seven queue handlers (internal/fulfillment/handlers.go), cut at their store and provider
    calls: between two cuts any other worker may run. */
module Fulfillment {
  import opened OrderModel
  import opened Topology
  import opened OrderStore

  /** What the outside world answers at one step. */
  datatype Answer = Answer(refuses: bool, provider: string, reference: string)

  /** Where a running handler stands: what it has read and decided so far. */
  datatype Pc =
    | Begin
    | Rejecting                              // stock was refused, the rejection is not recorded yet
    | Paying(amount: int, approved: bool, given: Answer)    // the provider was asked for `amount` and answered
    | Booking(approved: bool, given: Answer)                // the carrier was asked and answered
    | Completing                             // the order was read as shipment_created
    | Reviewing                              // the order was read as needing manual review
    | Cancelling                             // the order was read as free to cancel

  datatype Verdict = Continue(pc: Pc) | Success | Failure

  predicate HasIdentity(event: Event) {
    event.correlation != "" && event.order != "" && event.merchant != ""
  }

  function NextEvent(s: Store, previous: Event, kind: EventType): (next: Event) {
    Event(|s.outbox|, kind, previous.order, previous.merchant, previous.correlation, previous.id, 0)
  }

  function SystemAudit(event: Event, action: string): (audit: AuditLog) {
    AuditLog(event.order, action)
  }

  function RecordVerdict(r: (Store, Result<()>)): (v: (Store, Verdict)) {
    (r.0, if r.1.Ok? then Success else Failure)
  }

  function NormalizedProvider(provider: string): (r: string) {
    if provider == "" then FAKE_PAYMENT else provider
  }

  predicate RequiresManualReview(order: Order) {
    order.status == StatusCompleted || HasLiveShipment(order)
  }

  predicate IsNotificationEvent(kind: EventType) {
    kind == OrderCompleted || kind == OrderCancelled || kind == ManualReviewRequired
    || kind == InventoryRejected || kind == PaymentFailed || kind == ShipmentFailed
  }

  function CompensationPlan(kind: EventType): (plan: Option<(OrderStatus, string)>) {
    match kind
    case InventoryRejected => Some((StatusFailed, "compensation.inventory_rejected"))
    case PaymentFailed => Some((StatusCancelled, "compensation.payment_failed"))
    case ShipmentFailed => Some((StatusCancellationPending, "compensation.shipment_failed"))
    case _ => None
  }

  function ReserveInventory(s: Store, pc: Pc, event: Event, answer: Answer): (r: (Store, Verdict)) {
    if pc == Rejecting then
      RecordVerdict(RecordInventoryRejected(s, event, NextEvent(s, event, InventoryRejected), SystemAudit(event, "inventory.rejected")))
    else if event.kind != OrderCreated || !HasIdentity(event) then (s, Failure)
    else if answer.refuses then (s, Continue(Rejecting))
    else
      var r := RecordInventoryReserved(s, event, NextEvent(s, event, InventoryReserved), SystemAudit(event, "inventory.reserved"));
      if r.1 == Err(NoStock) then (s, Continue(Rejecting)) else RecordVerdict(r)
  }

  function AuthorizePayment(s: Store, pc: Pc, event: Event, answer: Answer): (r: (Store, Verdict)) {
    if pc.Paying? then
      if pc.approved then
        var payment := Payment(NormalizedProvider(pc.given.provider), Authorized, pc.given.reference);
        RecordVerdict(RecordPaymentAuthorized(s, event, NextEvent(s, event, PaymentAuthorized), payment, SystemAudit(event, "payment.authorized")))
      else
        RecordVerdict(RecordPaymentFailed(s, event, NextEvent(s, event, PaymentFailed), SystemAudit(event, "payment.failed")))
    else if event.kind != InventoryReserved || !HasIdentity(event) then (s, Failure)
    else if event.order !in s.orders then (s, Continue(Paying(0, false, answer)))
    else (s, Continue(Paying(s.orders[event.order].totals.total, !answer.refuses, answer)))
  }

  function CreateShipment(s: Store, pc: Pc, event: Event, answer: Answer): (r: (Store, Verdict)) {
    if pc.Booking? then
      if pc.approved then
        RecordVerdict(RecordShipmentCreated(s, event, NextEvent(s, event, ShipmentCreated), Shipment(pc.given.reference, Booked), SystemAudit(event, "shipment.created")))
      else
        RecordVerdict(RecordShipmentFailed(s, event, NextEvent(s, event, ShipmentFailed), SystemAudit(event, "shipment.failed")))
    else if event.kind != PaymentAuthorized || !HasIdentity(event) then (s, Failure)
    else (s, Continue(Booking(event.order in s.orders && !answer.refuses, answer)))
  }

  function StatusVerdict(r: (Store, Result<Order>)): (v: (Store, Verdict)) {
    (r.0, if r.1.Ok? then Success else Failure)
  }

  function CompleteOrder(s: Store, pc: Pc, event: Event): (r: (Store, Verdict)) {
    if pc == Completing then
      StatusVerdict(UpdateOrderStatus(s, event.order, StatusCompleted, NextEvent(s, event, OrderCompleted), SystemAudit(event, "order.completed")))
    else if event.kind != ShipmentCreated || !HasIdentity(event) || event.order !in s.orders then (s, Failure)
    else match s.orders[event.order].status
      case StatusShipmentCreated => (s, Continue(Completing))
      case StatusCompleted => (s, Success)
      case StatusCancellationPending => (s, Success)
      case StatusManualReview => (s, Success)
      case StatusCancelled => (s, Success)
      case _ => (s, Failure)
  }

  function CancelOrder(s: Store, pc: Pc, event: Event): (r: (Store, Verdict)) {
    if pc == Reviewing then
      StatusVerdict(UpdateOrderStatus(s, event.order, StatusManualReview, NextEvent(s, event, ManualReviewRequired), SystemAudit(event, "order.manual_review_required")))
    else if pc == Cancelling then
      RecordVerdict(RecordOrderCancelled(s, event, NextEvent(s, event, OrderCancelled), SystemAudit(event, "order.cancelled")))
    else if event.kind != CancelRequested || !HasIdentity(event) || event.order !in s.orders then (s, Failure)
    else
      var order := s.orders[event.order];
      if order.status == StatusCancelled || order.status == StatusManualReview then (s, Success)
      else if RequiresManualReview(order) then (s, Continue(Reviewing))
      else (s, Continue(Cancelling))
  }

  function CompensateOrder(s: Store, event: Event): (r: (Store, Verdict)) {
    match CompensationPlan(event.kind)
    case None => (s, Failure)
    case Some(plan) =>
      if !HasIdentity(event) then (s, Failure)
      else RecordVerdict(RecordCompensation(s, event, plan.0, SystemAudit(event, plan.1)))
  }

  function QueueNotification(s: Store, event: Event): (r: (Store, Verdict)) {
    if !IsNotificationEvent(event.kind) || !HasIdentity(event) then (s, Failure)
    else RecordVerdict(RecordNotificationQueued(s, event, SystemAudit(event, "notification.email_queued")))
  }

  /** One step of the handler for `queue` (HandlerForQueue). */
  function Advance(queue: Queue, s: Store, pc: Pc, event: Event, answer: Answer): (r: (Store, Verdict)) {
    match queue
    case InventoryReserve => ReserveInventory(s, pc, event, answer)
    case PaymentsAuthorize => AuthorizePayment(s, pc, event, answer)
    case ShipmentsCreate => CreateShipment(s, pc, event, answer)
    case OrdersFinalize => CompleteOrder(s, pc, event)
    case OrdersCancel => CancelOrder(s, pc, event)
    case OrdersCompensate => CompensateOrder(s, event)
    case NotificationsEmail => QueueNotification(s, event)
  }

  // ------------------------------------------------------------ what handlers refuse

  /** A handler refuses every event that is not of its queue, or that lacks a correlation ID, an order or a
      merchant, and then touches nothing, whatever the store holds and the outside answers. */
  lemma WrongEventsAreRefused(queue: Queue, s: Store, event: Event, answer: Answer)
    requires !Binds(queue, event.kind) || event.correlation == "" || event.order == "" || event.merchant == ""
    ensures Advance(queue, s, Begin, event, answer) == (s, Failure)
  {
  }
}
