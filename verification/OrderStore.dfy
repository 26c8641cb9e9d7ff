/** The order store as one value: what every method of the two stores does to it
    (internal/commerce/store.go and internal/postgres/store.go). A store without stock tables is the
    in-memory one; a store with them is the relational one. A refused call returns the store unchanged. */
module OrderStore {
  import opened OrderModel
  import opened Stock

  datatype StoreError =
    | NotFound
    | DuplicateOrder
    | InvalidStateTransition
    | NoStock
    | ReservationMismatch
    | ConstraintViolation

  datatype Result<+T> = Ok(value: T) | Err(error: StoreError)

  /** An index key: one string in memory, a pair of columns in a table. */
  datatype IndexKey = Scoped(text: string) | Columns(merchant: string, text: string)

  datatype AuditLog = AuditLog(order: string, action: string)

  datatype Store = Store(
    orders: map<string, Order>,
    byExternal: map<IndexKey, string>,
    byIdempotency: map<IndexKey, string>,
    outbox: seq<Event>,
    audits: seq<AuditLog>,
    stock: Option<Tables>)

  function NewStore(stock: Option<Tables>): (s: Store) {
    Store(map[], map[], map[], [], [], stock)
  }

  function ScopedKey(merchant: string, text: string): (key: string) {
    merchant + ":" + text
  }

  function KeyFor(s: Store, merchant: string, text: string): (key: IndexKey) {
    if s.stock.None? then Scoped(ScopedKey(merchant, text)) else Columns(merchant, text)
  }

  // ------------------------------------------------------------ insert

  /** Distinct SKUs, positive quantities and no negative price: what validation lets through. */
  predicate LinesSound(items: seq<Item>) {
    && (forall i, j :: 0 <= i < j < |items| ==> items[i].sku != items[j].sku)
    && forall i :: 0 <= i < |items| ==> items[i].quantity > 0 && items[i].unitPrice >= 0
  }

  const INTEGER_LIMIT: int := 0x8000_0000

  /** The order_items table demands sound lines, and its quantity column has 32 bits. */
  predicate RowsAccepted(items: seq<Item>)
    ensures RowsAccepted(items) <==> !Unstorable(items)
  {
    LinesSound(items) && forall i :: 0 <= i < |items| ==> items[i].quantity < INTEGER_LIMIT
  }

  /** The lines break a constraint of the table: a SKU twice, a quantity that is not positive or beyond 32
      bits, or a negative price. */
  ghost predicate Unstorable(items: seq<Item>) {
    || (exists i, j :: 0 <= i < j < |items| && items[i].sku == items[j].sku)
    || exists i :: 0 <= i < |items| && (items[i].quantity < 1 || items[i].quantity > 2_147_483_647 || items[i].unitPrice < 0)
  }

  /** The payment_authorizations table refuses a negative amount; in memory there is no such table. */
  predicate Unpayable(s: Store, id: string)
    requires id in s.orders
  {
    s.stock.Some? && s.orders[id].totals.total < 0
  }

  function InsertOrder(s: Store, merchant: string, key: string, order: Order, event: Event, audit: AuditLog)
    : (r: (Store, Result<(Order, bool)>))
  {
    var idempotency := KeyFor(s, merchant, key);
    var external := KeyFor(s, merchant, order.external);
    if idempotency in s.byIdempotency then
      var existing := s.byIdempotency[idempotency];
      if existing in s.orders then (s, Ok((s.orders[existing], true))) else (s, Err(NotFound))
    else if external in s.byExternal then (s, Err(DuplicateOrder))
    else if s.stock.Some? && order.id in s.orders then (s, Err(DuplicateOrder))
    else if s.stock.Some? && !RowsAccepted(order.items) then (s, Err(ConstraintViolation))
    else
      (s.(orders := s.orders[order.id := order],
          byExternal := s.byExternal[external := order.id],
          byIdempotency := s.byIdempotency[idempotency := order.id],
          outbox := s.outbox + [event],
          audits := s.audits + [audit]),
       Ok((order, false)))
  }

  // ------------------------------------------------------------ the state machine's writes

  /** Replaces one order and appends to the outbox and the audit log, in one transaction. */
  function Put(s: Store, id: string, order: Order, events: seq<Event>, audit: AuditLog): (r: Store) {
    s.(orders := s.orders[id := order], outbox := s.outbox + events, audits := s.audits + [audit])
  }

  function UpdateOrderStatus(s: Store, id: string, status: OrderStatus, event: Event, audit: AuditLog)
    : (r: (Store, Result<Order>))
  {
    if id !in s.orders then (s, Err(NotFound))
    else if !CanTransitionOrderStatus(s.orders[id].status, status) then (s, Err(InvalidStateTransition))
    else
      var order := s.orders[id].(status := status);
      (Put(s, id, order, [event], audit), Ok(order))
  }

  function StockFailure(error: StockError): (e: StoreError) {
    match error
    case InsufficientStock => NoStock
    case QuantityMismatch => ReservationMismatch
    case CheckViolation => ConstraintViolation
  }

  /** The lines taken from the stock tables, if there are any tables. */
  function TakeStock(s: Store, source: Event): (r: Result<Store>)
    requires source.order in s.orders
  {
    if s.stock.None? then Ok(s)
    else if s.orders[source.order].items == [] then Err(NotFound)
    else
      var outcome := ReserveAll(s.stock.value, source.merchant, source.order, s.orders[source.order].items);
      if outcome.Refused? then Err(StockFailure(outcome.error)) else Ok(s.(stock := Some(outcome.tables)))
  }

  function ReturnStock(s: Store, id: string): (r: Store) {
    if s.stock.None? then s else s.(stock := Some(Release(s.stock.value, id)))
  }

  function RecordInventoryReserved(s: Store, source: Event, next: Event, audit: AuditLog): (r: (Store, Result<()>)) {
    if source.order !in s.orders then (s, Err(NotFound))
    else if !CanTransitionOrderStatus(s.orders[source.order].status, StatusInventoryReserved) then
      (s, Err(InvalidStateTransition))
    else match TakeStock(s, source)
      case Err(error) => (s, Err(error))
      case Ok(taken) =>
        var order := s.orders[source.order];
        (Put(taken, source.order, order.(status := StatusInventoryReserved, items := MarkItems(order.items, ItemReserved)), [next], audit),
         Ok(()))
  }

  function RecordInventoryRejected(s: Store, source: Event, next: Event, audit: AuditLog): (r: (Store, Result<()>)) {
    if source.order !in s.orders then (s, Err(NotFound))
    else
      var order := s.orders[source.order];
      (Put(s, source.order, order.(items := MarkItems(order.items, ItemRejected)), [next], audit), Ok(()))
  }

  const FAKE_PAYMENT := "fake-payment"

  function AdoptedProvider(s: Store, order: Order, provider: string): (r: string) {
    if provider != "" then provider
    else if order.payment.Some? && (s.stock.None? || order.payment.value.provider != "") then order.payment.value.provider
    else if s.stock.None? then "" else FAKE_PAYMENT
  }

  function RecordPaymentAuthorized(s: Store, source: Event, next: Event, payment: Payment, audit: AuditLog)
    : (r: (Store, Result<()>))
  {
    if source.order !in s.orders then (s, Err(NotFound))
    else if !CanTransitionOrderStatus(s.orders[source.order].status, StatusPaymentAuthorized) then
      (s, Err(InvalidStateTransition))
    else if Unpayable(s, source.order) then (s, Err(ConstraintViolation))
    else
      var order := s.orders[source.order];
      var paid := payment.(provider := AdoptedProvider(s, order, payment.provider));
      (Put(s, source.order, order.(status := StatusPaymentAuthorized, payment := Some(paid)),
           [next.(amount := order.totals.total)], audit),
       Ok(()))
  }

  function FailedPayment(order: Order): (r: Payment) {
    var provider :=
      if order.payment.Some? && order.payment.value.provider != "" then order.payment.value.provider else FAKE_PAYMENT;
    Payment(provider, AuthorizationFailed, "")
  }

  function RecordPaymentFailed(s: Store, source: Event, next: Event, audit: AuditLog): (r: (Store, Result<()>)) {
    if source.order !in s.orders then (s, Err(NotFound))
    else
      var order := s.orders[source.order];
      (Put(s, source.order, order.(payment := Some(FailedPayment(order))), [next], audit), Ok(()))
  }

  function RecordShipmentCreated(s: Store, source: Event, next: Event, shipment: Shipment, audit: AuditLog)
    : (r: (Store, Result<()>))
  {
    if source.order !in s.orders then (s, Err(NotFound))
    else if !CanTransitionOrderStatus(s.orders[source.order].status, StatusShipmentCreated) then
      (s, Err(InvalidStateTransition))
    else
      var order := s.orders[source.order];
      (Put(s, source.order, order.(status := StatusShipmentCreated, shipment := Some(shipment)), [next], audit), Ok(()))
  }

  /** In memory a failed booking replaces the shipment; the shipments table keeps its row. */
  function FailedBooking(s: Store, order: Order): (r: Option<Shipment>) {
    if s.stock.None? then Some(Shipment("", BookingFailed)) else order.shipment
  }

  function RecordShipmentFailed(s: Store, source: Event, next: Event, audit: AuditLog): (r: (Store, Result<()>)) {
    if source.order !in s.orders then (s, Err(NotFound))
    else
      var order := s.orders[source.order];
      (Put(s, source.order, order.(shipment := FailedBooking(s, order)), [next], audit), Ok(()))
  }

  function RecordOrderCancelled(s: Store, source: Event, next: Event, audit: AuditLog): (r: (Store, Result<()>)) {
    if source.order !in s.orders then (s, Err(NotFound))
    else if !CanTransitionOrderStatus(s.orders[source.order].status, StatusCancelled) then
      (s, Err(InvalidStateTransition))
    else
      var order := s.orders[source.order];
      (Put(ReturnStock(s, source.order), source.order,
           order.(status := StatusCancelled, items := ReleaseItems(order.items), payment := VoidPayment(order.payment)),
           [next], audit),
       Ok(()))
  }

  function RecordNotificationQueued(s: Store, source: Event, audit: AuditLog): (r: (Store, Result<()>)) {
    if source.order !in s.orders then (s, Err(NotFound)) else (s.(audits := s.audits + [audit]), Ok(()))
  }

  predicate ReleasesStock(kind: EventType) {
    kind == PaymentFailed || kind == ShipmentFailed
  }

  function Compensated(order: Order, kind: EventType, status: OrderStatus): (r: Order) {
    order.(status := status,
           items := if ReleasesStock(kind) then ReleaseItems(order.items) else order.items,
           payment := if kind == ShipmentFailed then VoidPayment(order.payment) else order.payment)
  }

  function RecordCompensation(s: Store, source: Event, status: OrderStatus, audit: AuditLog): (r: (Store, Result<()>)) {
    if source.order !in s.orders then (s, Err(NotFound))
    else if !CanTransitionOrderStatus(s.orders[source.order].status, status) then (s, Err(InvalidStateTransition))
    else
      var s1 := if ReleasesStock(source.kind) then ReturnStock(s, source.order) else s;
      (Put(s1, source.order, Compensated(s.orders[source.order], source.kind, status), [], audit), Ok(()))
  }
}
