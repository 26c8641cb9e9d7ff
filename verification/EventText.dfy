/** Event types as text: the routing keys messages travel under, the producers and default payloads their
    envelopes name, and how these fit the saga and the broker (internal/messaging/topology.go,
    internal/commerce/model.go). */
module EventText {
  import opened OrderModel
  import opened Text
  import opened Topology
  import opened Delivery
  import opened Metadata
  import opened Stock
  import opened OrderStore
  import opened Fulfillment
  import opened Saga
  import opened SagaInvariant
  import opened SagaSafety
  import opened SagaTheorems

  function EventName(kind: EventType): (name: string) {
    match kind
    case OrderCreated => "order.created"
    case InventoryReserved => "inventory.reserved"
    case InventoryRejected => "inventory.rejected"
    case PaymentAuthorized => "payment.authorized"
    case PaymentFailed => "payment.failed"
    case ShipmentCreated => "shipment.created"
    case ShipmentFailed => "shipment.failed"
    case CancelRequested => "order.cancel_requested"
    case OrderCompleted => "order.completed"
    case OrderCancelled => "order.cancelled"
    case ManualReviewRequired => "order.manual_review_required"
    case OtherEvent(text) => text
  }

  /** The routing keys a queue, its retry queue and its dead-letter queue are bound to. */
  function BoundKeys(queue: Queue): (keys: seq<string>) {
    match queue
    case InventoryReserve => ["order.created"]
    case PaymentsAuthorize => ["inventory.reserved"]
    case ShipmentsCreate => ["payment.authorized"]
    case OrdersFinalize => ["shipment.created"]
    case OrdersCancel => ["order.cancel_requested"]
    case OrdersCompensate => ["inventory.rejected", "payment.failed", "shipment.failed"]
    case NotificationsEmail =>
      ["order.completed", "order.cancelled", "order.manual_review_required", "inventory.rejected", "payment.failed", "shipment.failed"]
  }

  // ------------------------------------------------------------ routing keys

  /** No operator replays the message. */
  ghost predicate NoReplay(hops: seq<Hop>) {
    forall i :: 0 <= i < |hops| ==> !hops[i].Replayed?
  }

  /** Until it is replayed, a message keeps the routing key it was published under: its event type. */
  lemma {:induction false} KeyStays(e: Envelope, trace: map<string, Header>, hops: seq<Hop>)
    requires IsTrace(trace) && NoReplay(hops)
    ensures Travelled(Published(e, trace), hops).routingKey == Trim(e.eventType)
  {
    hide Trim, Decoded, WithEnvelopeDefaults;
    if |hops| > 0 {
      KeyStays(e, trace, hops[..|hops| - 1]);
      TravelKeepsTheEvent(Published(e, trace), hops[..|hops| - 1]);
      PublishedEventDecodes(e, trace);
    }
  }

  /** After a replay it has the operator's key, until the next replay. */
  lemma {:induction false} ReplayKeyStays(m: Message, key: string, hops: seq<Hop>)
    requires key != "" && NoReplay(hops)
    ensures Travelled(Sent(m, Replayed(key)), hops).routingKey == key
  {
    if |hops| > 0 {
      ReplayKeyStays(m, key, hops[..|hops| - 1]);
      hide Decoded;
    }
  }

  lemma NamesKeepTrimmed(kind: EventType)
    requires !kind.OtherEvent?
    ensures Trim(EventName(kind)) == EventName(kind) && EventName(kind) != ""
  {
    TrimKeeps(EventName(kind));
  }

  /** A queue receives an event's name exactly if the fan-out of that event type has it. */
  lemma NamesReachTheirQueues(kind: EventType, q: Queue)
    requires !kind.OtherEvent?
    ensures EventName(kind) in BoundKeys(q) <==> q in QueuesFor(kind)
  {
  }

  /** However often an event's message was retried, expired or dead-lettered, the queues bound to its routing
      key are those the delivery protocol fans its copies out to. */
  lemma CopiesFollowTheKey(e: Envelope, trace: map<string, Header>, hops: seq<Hop>, kind: EventType, q: Queue, c: Copy, attempt: nat)
    requires IsTrace(trace) && NoReplay(hops) && !kind.OtherEvent? && e.eventType == EventName(kind) && c.kind == kind
    ensures Travelled(Published(e, trace), hops).routingKey in BoundKeys(q) <==> Copy(q, c.message, kind, attempt) in Refan(c, attempt)
  {
    hide Travelled, Published;
    KeyStays(e, trace, hops);
    NamesKeepTrimmed(kind);
    NamesReachTheirQueues(kind, q);
    if q in QueuesFor(kind) {
      FanHas(c.message, kind, attempt, q);
    }
  }

  // ------------------------------------------------------------ producers

  /** The component that runs a queue's handler. */
  function WorkerName(queue: Queue): (name: string) {
    match queue
    case InventoryReserve => "inventory-worker"
    case PaymentsAuthorize => "payment-worker"
    case ShipmentsCreate => "shipment-worker"
    case NotificationsEmail => "notification-worker"
    case _ => "orders-worker"
  }

  /** The default producer of a root event is the API, which emits it. */
  lemma RootsComeFromTheApi(kind: EventType)
    requires IsRoot(kind)
    ensures ProducerForEventType(EventName(kind)) == "orders-api"
  {
  }

  /** The default producer of any other event is the worker that handles the event's cause. */
  lemma ProducerIsTheEmitter(cause: EventType, kind: EventType)
    requires Follows(cause, kind)
    ensures Primary(cause).Some? && ProducerForEventType(EventName(kind)) == WorkerName(Primary(cause).value)
  {
    hide EventName, ProducerForEventType;
    ProducerOf(kind);
  }

  lemma ProducerOf(kind: EventType)
    requires !kind.OtherEvent?
    ensures ProducerForEventType(EventName(kind)) == (
      match kind
      case OrderCreated => "orders-api"
      case CancelRequested => "orders-api"
      case InventoryReserved => "inventory-worker"
      case InventoryRejected => "inventory-worker"
      case PaymentAuthorized => "payment-worker"
      case PaymentFailed => "payment-worker"
      case ShipmentCreated => "shipment-worker"
      case ShipmentFailed => "shipment-worker"
      case _ => "orders-worker")
  {
  }

  // ------------------------------------------------------------ payloads

  function StatusName(status: OrderStatus): (name: string) {
    match status
    case StatusPendingFulfillment => "pending_fulfillment"
    case StatusInventoryReserved => "inventory_reserved"
    case StatusPaymentAuthorized => "payment_authorized"
    case StatusShipmentCreated => "shipment_created"
    case StatusCancellationPending => "cancellation_pending"
    case StatusManualReview => "manual_review"
    case StatusCancelled => "cancelled"
    case StatusCompleted => "completed"
    case StatusFailed => "failed"
    case UnknownStatus(text) => text
  }

  /** The status an event announces; failure events announce none. */
  function Announces(kind: EventType): (status: Option<OrderStatus>) {
    match kind
    case OrderCreated => Some(StatusPendingFulfillment)
    case InventoryReserved => Some(StatusInventoryReserved)
    case PaymentAuthorized => Some(StatusPaymentAuthorized)
    case ShipmentCreated => Some(StatusShipmentCreated)
    case CancelRequested => Some(StatusCancellationPending)
    case OrderCompleted => Some(StatusCompleted)
    case OrderCancelled => Some(StatusCancelled)
    case ManualReviewRequired => Some(StatusManualReview)
    case _ => None
  }

  /** An envelope without a payload is given one that names the status the event announces and when an order
      ended, or the stage that failed. */
  lemma PayloadSaysWhatHappened(e: Envelope, kind: EventType)
    requires e.eventType == EventName(kind) && |e.payload| == 0 && !kind.OtherEvent?
    ensures var p := WithEnvelopeDefaults(e).payload;
      && (Announces(kind).Some? ==> "order_status" in p && p["order_status"] == Str(StatusName(Announces(kind).value)))
      && (Announces(kind).None? ==> "failure" in p && SaysStage(p["failure"], FailedStage(kind)))
      && (kind == OrderCompleted && e.occurredAt.Some? ==> "completed_at" in p && p["completed_at"] == Str(e.occurredAt.value))
      && (kind == OrderCancelled && e.occurredAt.Some? ==> "cancelled_at" in p && p["cancelled_at"] == Str(e.occurredAt.value))
  {
    hide ProducerForEventType, DefaultEventPayload, EventName, StatusName;
    if Announces(kind).None? {
      FailurePayloads(e, kind);
    } else {
      StatusPayloads(e, kind);
    }
  }

  lemma FailurePayloads(e: Envelope, kind: EventType)
    requires e.eventType == EventName(kind) && (kind == InventoryRejected || kind == PaymentFailed || kind == ShipmentFailed)
    ensures DefaultEventPayload(e) == FailurePayload(FailedStage(kind))
  {
  }

  lemma StatusPayloads(e: Envelope, kind: EventType)
    requires e.eventType == EventName(kind) && Announces(kind).Some?
    ensures DefaultEventPayload(e) == (
      var p := StatusPayload(StatusName(Announces(kind).value));
      if kind == OrderCompleted then Stamped(p, "completed_at", e.occurredAt)
      else if kind == OrderCancelled then Stamped(p, "cancelled_at", e.occurredAt) else p)
  {
  }

  predicate SaysStage(failure: Json, stage: string) {
    failure == Obj(map["stage" := Str(stage), "reason" := Str("unspecified")])
  }

  function FailedStage(kind: EventType): (stage: string) {
    match kind
    case InventoryRejected => "inventory"
    case PaymentFailed => "payment"
    case _ => "shipment"
  }

  /** The store has one more event, and its order has the status that event announces. */
  ghost predicate SaysStatus(s: Store, s': Store) {
    var n := |s.outbox|;
    && |s'.outbox| == n + 1 && s'.outbox[n].order in s'.orders
    && var e := s'.outbox[n];
      Announces(e.kind).Some? ==> s'.orders[e.order].status == Announces(e.kind).value
  }

  lemma FulfilmentAnnounces(queue: Queue, s: Store, pc: Pc, event: Event, answer: Answer)
    requires queue == InventoryReserve || queue == PaymentsAuthorize || queue == ShipmentsCreate
    requires Advance(queue, s, pc, event, answer).0.outbox != s.outbox
    ensures SaysStatus(s, Advance(queue, s, pc, event, answer).0)
  {
    hide ReserveAll, MarkItems, FailedPayment, AdoptedProvider, CanTransitionOrderStatus, FailedBooking;
    match queue
    case InventoryReserve => case PaymentsAuthorize => case ShipmentsCreate =>
  }

  lemma HandlerAnnounces(queue: Queue, s: Store, pc: Pc, event: Event, answer: Answer)
    requires Advance(queue, s, pc, event, answer).0.outbox != s.outbox
    ensures SaysStatus(s, Advance(queue, s, pc, event, answer).0)
  {
    hide Release, ReleaseItems, VoidPayment, HasLiveShipment, CanTransitionOrderStatus, Compensated, ReserveInventory,
      AuthorizePayment, CreateShipment;
    match queue
    case OrdersFinalize => case OrdersCancel => case OrdersCompensate => case NotificationsEmail =>
    case _ => FulfilmentAnnounces(queue, s, pc, event, answer);
  }

  lemma AppendAnnounces(s: State, a: Action)
    requires Inv(s) && Step(s, a).store.outbox != s.store.outbox
    ensures SaysStatus(s.store, Step(s, a).store)
  {
    hide Inv, Advance, RowsAccepted, LinesSound, AllItems, CanTransitionOrderStatus;
    IdsOf(s);
    if a.Work? && IsRunning(s, a.key) {
      HandlerAnnounces(a.key.queue, s.store, s.runs[a.key].pc, s.store.outbox[a.key.message], a.answer);
    }
  }

  /** In every run, whenever an event is appended to the outbox, its order has the status the event announces. */
  lemma EventsAnnounceTheStatus(s0: State, acts: seq<Action>, a: Action)
    requires Init(s0) && Step(Run(s0, acts), a).store.outbox != Run(s0, acts).store.outbox
    ensures SaysStatus(Run(s0, acts).store, Step(Run(s0, acts), a).store)
  {
    hide Run, Init, Inv, Step, SaysStatus;
    ReachableInv(s0, acts);
    AppendAnnounces(Run(s0, acts), a);
  }
}
