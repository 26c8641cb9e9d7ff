/** Orders, statuses and saga events (internal/commerce/model.go), and the
    relation every status write is checked against (internal/commerce/state_machine.go). */
module OrderModel {

  datatype Option<+T> = None | Some(value: T)

  datatype OrderStatus =
    | StatusPendingFulfillment
    | StatusInventoryReserved
    | StatusPaymentAuthorized
    | StatusShipmentCreated
    | StatusCancellationPending
    | StatusManualReview
    | StatusCancelled
    | StatusCompleted
    | StatusFailed
    | UnknownStatus(text: string)

  datatype EventType =
    | OrderCreated
    | InventoryReserved
    | InventoryRejected
    | PaymentAuthorized
    | PaymentFailed
    | ShipmentCreated
    | ShipmentFailed
    | CancelRequested
    | OrderCompleted
    | OrderCancelled
    | ManualReviewRequired
    | OtherEvent(text: string)

  datatype ReservationStatus = ItemPending | ItemReserved | ItemRejected | ItemReleased

  datatype Item = Item(sku: string, quantity: int, unitPrice: int, reservation: ReservationStatus)

  datatype PaymentStatus = PendingAuthorization | Authorized | AuthorizationFailed | Voided

  datatype Payment = Payment(provider: string, status: PaymentStatus, authorizationId: string)

  datatype ShipmentStatus = Booked | BookingFailed

  datatype Shipment = Shipment(id: string, status: ShipmentStatus)

  datatype Totals = Totals(subtotal: int, shipping: int, total: int)

  datatype Order = Order(
    id: string,
    merchant: string,
    external: string,
    status: OrderStatus,
    currency: string,
    totals: Totals,
    items: seq<Item>,
    payment: Option<Payment>,
    shipment: Option<Shipment>)

  /** An outbox event. Message identifiers are numbers: fresh ones are all the model needs of them.
      `amount` is the money amount its payload carries (order.created and payment.authorized), 0 for
      the other types. */
  datatype Event = Event(
    id: nat,
    kind: EventType,
    order: string,
    merchant: string,
    correlation: string,
    causation: nat,
    amount: int)

  predicate IsValidOrderStatus(status: OrderStatus) {
    !status.UnknownStatus?
  }

  predicate CanTransitionOrderStatus(from: OrderStatus, to: OrderStatus) {
    if from == to then IsValidOrderStatus(to)
    else match from
      case StatusPendingFulfillment =>
        to == StatusInventoryReserved || to == StatusCancellationPending || to == StatusFailed
      case StatusInventoryReserved =>
        to == StatusPaymentAuthorized || to == StatusCancellationPending || to == StatusCancelled
      case StatusPaymentAuthorized =>
        to == StatusShipmentCreated || to == StatusCancellationPending
      case StatusShipmentCreated =>
        to == StatusCompleted || to == StatusCancellationPending
      case StatusCancellationPending =>
        to == StatusCancelled || to == StatusManualReview
      case _ => false
  }

  predicate IsTerminal(status: OrderStatus) {
    status == StatusManualReview || status == StatusCancelled || status == StatusCompleted || status == StatusFailed
  }

  /** Position of a status in the life cycle; every real move goes strictly up. */
  function Rank(status: OrderStatus): (r: nat) {
    match status
    case StatusPendingFulfillment => 0
    case StatusInventoryReserved => 1
    case StatusPaymentAuthorized => 2
    case StatusShipmentCreated => 3
    case StatusCancellationPending => 4
    case _ => 5
  }

  /** A status history: each entry is reached from the one before by an accepted, real move. */
  ghost predicate IsLifeCycle(path: seq<OrderStatus>) {
    forall i :: 0 <= i < |path| - 1 ==> path[i] != path[i + 1] && CanTransitionOrderStatus(path[i], path[i + 1])
  }

  lemma {:induction false} LifeCycleClimbs(path: seq<OrderStatus>)
    requires IsLifeCycle(path) && |path| > 0
    ensures Rank(path[0]) + |path| - 1 <= Rank(path[|path| - 1])
  {
    if |path| > 1 {
      assert path[0] != path[1] && CanTransitionOrderStatus(path[0], path[1]);
      LifeCycleClimbs(path[1..]);
    }
  }

  /** Every order changes status at most five times, never comes back to a status it left, and a
      terminal status is never left. */
  lemma LifeCycleIsBounded(path: seq<OrderStatus>)
    requires IsLifeCycle(path)
    ensures |path| <= 6
    ensures forall i, j :: 0 <= i < j < |path| ==> path[i] != path[j]
    ensures forall i :: 0 <= i < |path| - 1 ==> !IsTerminal(path[i])
  {
    if |path| > 0 {
      LifeCycleClimbs(path);
    }
    forall i, j | 0 <= i < j < |path| ensures path[i] != path[j] {
      var part := path[i..j + 1];
      LifeCycleClimbs(part);
    }
    forall i | 0 <= i < |path| - 1 ensures !IsTerminal(path[i]) {
      assert path[i] != path[i + 1] && CanTransitionOrderStatus(path[i], path[i + 1]);
    }
  }

  function MarkItems(items: seq<Item>, mark: ReservationStatus): (r: seq<Item>)
    ensures |r| == |items|
  {
    seq(|items|, i requires 0 <= i < |items| => items[i].(reservation := mark))
  }

  function ReleaseItem(item: Item): (r: Item) {
    if item.reservation == ItemReserved then item.(reservation := ItemReleased) else item
  }

  function ReleaseItems(items: seq<Item>): (r: seq<Item>)
    ensures |r| == |items|
  {
    seq(|items|, i requires 0 <= i < |items| => ReleaseItem(items[i]))
  }

  function VoidPayment(payment: Option<Payment>): (r: Option<Payment>) {
    if payment.Some? && payment.value.status == Authorized
    then Some(payment.value.(status := Voided))
    else payment
  }

  /** A shipment that was booked and has not failed. */
  predicate HasLiveShipment(order: Order) {
    order.shipment.Some? && order.shipment.value.status == Booked
  }

  /** What an order line says apart from its reservation status. */
  function Snapshot(item: Item): (r: (string, int, int)) {
    (item.sku, item.quantity, item.unitPrice)
  }

  /** The parts of an order that no step may ever change. */
  ghost predicate SameTerms(a: Order, b: Order) {
    && a.id == b.id && a.merchant == b.merchant && a.external == b.external
    && a.currency == b.currency && a.totals == b.totals
    && |a.items| == |b.items|
    && forall i :: 0 <= i < |a.items| ==> Snapshot(a.items[i]) == Snapshot(b.items[i])
  }
}
