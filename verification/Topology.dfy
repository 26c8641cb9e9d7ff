/** Queues and routing keys (internal/messaging/topology.go). */
module Topology {
  import opened OrderModel

  datatype Queue =
    | InventoryReserve
    | PaymentsAuthorize
    | ShipmentsCreate
    | OrdersFinalize
    | OrdersCancel
    | OrdersCompensate
    | NotificationsEmail

  const DEFAULT_MAX_RETRIES: nat := 3

  function RoutingKeys(queue: Queue): (keys: seq<EventType>) {
    match queue
    case InventoryReserve => [OrderCreated]
    case PaymentsAuthorize => [InventoryReserved]
    case ShipmentsCreate => [PaymentAuthorized]
    case OrdersFinalize => [ShipmentCreated]
    case OrdersCancel => [CancelRequested]
    case OrdersCompensate => [InventoryRejected, PaymentFailed, ShipmentFailed]
    case NotificationsEmail =>
      [OrderCompleted, OrderCancelled, ManualReviewRequired, InventoryRejected, PaymentFailed, ShipmentFailed]
  }

  /** The queues a topic exchange copies a message with this routing key to. */
  function QueuesFor(kind: EventType): (bound: seq<Queue>) {
    match kind
    case OrderCreated => [InventoryReserve]
    case InventoryReserved => [PaymentsAuthorize]
    case PaymentAuthorized => [ShipmentsCreate]
    case ShipmentCreated => [OrdersFinalize]
    case CancelRequested => [OrdersCancel]
    case InventoryRejected => [OrdersCompensate, NotificationsEmail]
    case PaymentFailed => [OrdersCompensate, NotificationsEmail]
    case ShipmentFailed => [OrdersCompensate, NotificationsEmail]
    case OrderCompleted => [NotificationsEmail]
    case OrderCancelled => [NotificationsEmail]
    case ManualReviewRequired => [NotificationsEmail]
    case OtherEvent(_) => []
  }

  /** A queue receives a routing key. */
  predicate Binds(queue: Queue, kind: EventType) {
    match queue
    case InventoryReserve => kind == OrderCreated
    case PaymentsAuthorize => kind == InventoryReserved
    case ShipmentsCreate => kind == PaymentAuthorized
    case OrdersFinalize => kind == ShipmentCreated
    case OrdersCancel => kind == CancelRequested
    case OrdersCompensate => kind == InventoryRejected || kind == PaymentFailed || kind == ShipmentFailed
    case NotificationsEmail =>
      kind == OrderCompleted || kind == OrderCancelled || kind == ManualReviewRequired
      || kind == InventoryRejected || kind == PaymentFailed || kind == ShipmentFailed
  }

  /** The declared bindings, the fan-out table and the predicate above say the same. */
  lemma RoutingIsTheBindingTable(kind: EventType, queue: Queue)
    ensures queue in QueuesFor(kind) <==> kind in RoutingKeys(queue)
    ensures queue in QueuesFor(kind) <==> Binds(queue, kind)
  {
    var keys := RoutingKeys(queue);
    if queue == NotificationsEmail {
      assert keys[0] == OrderCompleted && keys[1] == OrderCancelled && keys[2] == ManualReviewRequired;
      assert keys[3] == InventoryRejected && keys[4] == PaymentFailed && keys[5] == ShipmentFailed;
    } else if queue == OrdersCompensate {
      assert keys[0] == InventoryRejected && keys[1] == PaymentFailed && keys[2] == ShipmentFailed;
    } else {
      assert |keys| == 1 && keys[0] == keys[0];
    }
    var queues := QueuesFor(kind);
    assert |queues| == 2 ==> queues[0] == OrdersCompensate && queues[1] == NotificationsEmail;
    assert |queues| == 1 ==> queues == [queues[0]];
  }
}
