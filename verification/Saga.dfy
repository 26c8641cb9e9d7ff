/** The order saga as a transition system: the API, the seven handlers and any interleaving of
    their steps over one store. A delivery may reach a handler at any time after its event is in the
    outbox, as often as the inbox lets it through. */
module Saga {
  import opened OrderModel
  import opened Stock
  import opened StockLaws
  import opened Topology
  import opened OrderStore
  import opened Fulfillment

  /** One consumer and one message; a message is its place in the outbox. */
  datatype Key = Key(queue: Queue, message: nat)

  datatype Progress = Running(pc: Pc) | Succeeded

  /** `runs` is what the inbox holds; `refused` remembers every handler that returned an error of
      its own, as opposed to one caused by the infrastructure. */
  datatype State = State(store: Store, runs: map<Key, Progress>, refused: set<Key>)

  datatype Action =
    | Create(merchant: string, idempotencyKey: string, draft: Order, correlation: string)
    | RequestCancel(id: string, correlation: string)
    | Start(key: Key)
    | Work(key: Key, answer: Answer)
    | Abort(key: Key)    // an infrastructure error anywhere in the handler

  /** What CreateOrderContext hands to the store: a new, validated, untouched order. */
  ghost predicate NewOrder(s: Store, merchant: string, order: Order) {
    && order.id != "" && order.id !in s.orders
    && order.merchant == merchant != ""
    && order.status == StatusPendingFulfillment
    && order.items != [] && LinesSound(order.items)
    && AllItems(order, ItemPending)
    && PaymentIs(order, PendingAuthorization)
    && order.shipment.None?
  }

  ghost predicate AllItems(order: Order, mark: ReservationStatus) {
    forall i :: 0 <= i < |order.items| ==> order.items[i].reservation == mark
  }

  ghost predicate PaymentIs(order: Order, status: PaymentStatus) {
    order.payment.Some? && order.payment.value.status == status
  }

  function RootEvent(s: Store, kind: EventType, order: Order, correlation: string, amount: int): (e: Event) {
    Event(|s.outbox|, kind, order.id, order.merchant, correlation, |s.outbox|, amount)
  }

  function CreateStep(s: Store, merchant: string, key: string, order: Order, correlation: string)
    : (r: (Store, Result<(Order, bool)>))
  {
    InsertOrder(s, merchant, key, order, RootEvent(s, OrderCreated, order, correlation, order.totals.total), AuditLog(order.id, "order.create"))
  }

  /** CancelOrderContext. Its first read only rejects what the write below rejects again. */
  function CancelStep(s: Store, id: string, correlation: string): (r: (Store, Result<Order>)) {
    if id !in s.orders then (s, Err(NotFound))
    else if s.orders[id].status == StatusCompleted || s.orders[id].status == StatusCancelled then
      (s, Err(InvalidStateTransition))
    else
      UpdateOrderStatus(s, id, StatusCancellationPending,
        RootEvent(s, CancelRequested, s.orders[id], correlation, 0), AuditLog(id, "order.cancel_requested"))
  }

  function Finish(s: State, key: Key, r: (Store, Verdict)): (s': State) {
    match r.1
    case Continue(pc) => s.(store := r.0, runs := s.runs[key := Running(pc)])
    case Success => s.(store := r.0, runs := s.runs[key := Succeeded])
    case Failure => s.(store := r.0, runs := s.runs - {key}, refused := s.refused + {key})
  }

  predicate IsRunning(s: State, key: Key) {
    key in s.runs && s.runs[key].Running? && key.message < |s.store.outbox|
  }

  predicate IsDone(s: State, key: Key) {
    key in s.runs && s.runs[key].Succeeded?
  }

  /** One step; an action that is not enabled changes nothing. */
  ghost function Step(s: State, a: Action): (s': State) {
    match a
    case Create(merchant, key, order, correlation) =>
      if NewOrder(s.store, merchant, order) && correlation != ""
      then s.(store := CreateStep(s.store, merchant, key, order, correlation).0) else s
    case RequestCancel(id, correlation) =>
      if correlation != "" then s.(store := CancelStep(s.store, id, correlation).0) else s
    case Start(key) =>
      if key !in s.runs && key.message < |s.store.outbox| && Binds(key.queue, s.store.outbox[key.message].kind)
      then s.(runs := s.runs[key := Running(Begin)]) else s
    case Work(key, answer) =>
      if IsRunning(s, key)
      then Finish(s, key, Advance(key.queue, s.store, s.runs[key].pc, s.store.outbox[key.message], answer)) else s
    case Abort(key) =>
      if IsRunning(s, key) then s.(runs := s.runs - {key}) else s
  }

  ghost function Run(s: State, acts: seq<Action>): (s': State) {
    if |acts| == 0 then s else Step(Run(s, acts[..|acts| - 1]), acts[|acts| - 1])
  }

  /** Nothing ordered yet; the stock tables, if any, hold no reservation. */
  ghost predicate Init(s: State) {
    && s.store.orders == map[] && s.store.byExternal == map[] && s.store.byIdempotency == map[]
    && s.store.outbox == [] && s.store.audits == []
    && (s.store.stock.Some? ==> Unreserved(s.store.stock.value))
    && s.runs == map[] && s.refused == {}
  }

  // ------------------------------------------------------------ reading an order's history

  predicate OnChain(kind: EventType) {
    match kind
    case CancelRequested => false
    case OrderCancelled => false
    case ManualReviewRequired => false
    case OtherEvent(_) => false
    case _ => true
  }

  predicate IsRoot(kind: EventType) {
    kind == OrderCreated || kind == CancelRequested
  }

  /** How far along the fulfilment chain an event is. */
  function Stage(kind: EventType): (n: nat) {
    match kind
    case OrderCreated => 0
    case InventoryReserved => 1
    case InventoryRejected => 1
    case PaymentAuthorized => 2
    case PaymentFailed => 2
    case ShipmentCreated => 3
    case ShipmentFailed => 3
    case OrderCompleted => 4
    case _ => 5
  }

  /** The queue whose handler emits an event's successor, where there is one. */
  function Primary(kind: EventType): (q: Option<Queue>) {
    match kind
    case OrderCreated => Some(InventoryReserve)
    case InventoryReserved => Some(PaymentsAuthorize)
    case PaymentAuthorized => Some(ShipmentsCreate)
    case ShipmentCreated => Some(OrdersFinalize)
    case CancelRequested => Some(OrdersCancel)
    case _ => None
  }

  predicate Follows(before: EventType, after: EventType) {
    match before
    case OrderCreated => after == InventoryReserved || after == InventoryRejected
    case InventoryReserved => after == PaymentAuthorized || after == PaymentFailed
    case PaymentAuthorized => after == ShipmentCreated || after == ShipmentFailed
    case ShipmentCreated => after == OrderCompleted
    case CancelRequested => after == OrderCancelled || after == ManualReviewRequired
    case _ => false
  }

  /** The last fulfilment event of an order, -1 if there is none. */
  function Tail(outbox: seq<Event>, order: string): (t: int)
    ensures -1 <= t < |outbox|
    ensures t >= 0 ==> outbox[t].order == order && OnChain(outbox[t].kind)
    ensures forall i :: t < i < |outbox| ==> !(outbox[i].order == order && OnChain(outbox[i].kind))
  {
    if |outbox| == 0 then -1
    else
      var last := |outbox| - 1;
      if outbox[last].order == order && OnChain(outbox[last].kind) then last else Tail(outbox[..last], order)
  }

  /** A cancellation was accepted for the order. */
  predicate Requested(outbox: seq<Event>, order: string) {
    exists i :: 0 <= i < |outbox| && outbox[i].order == order && outbox[i].kind == CancelRequested
  }

  lemma TailAppend(outbox: seq<Event>, e: Event, order: string)
    ensures Tail(outbox + [e], order) ==
      if e.order == order && OnChain(e.kind) then |outbox| else Tail(outbox, order)
    ensures Requested(outbox + [e], order) <==>
      Requested(outbox, order) || (e.order == order && e.kind == CancelRequested)
  {
    var outbox' := outbox + [e];
    assert outbox'[..|outbox|] == outbox;
    assert outbox'[|outbox|] == e;
    if Requested(outbox, order) {
      var i :| 0 <= i < |outbox| && outbox[i].order == order && outbox[i].kind == CancelRequested;
      assert outbox'[i].kind == CancelRequested;
    }
  }

  lemma {:induction false} RunConcat(s: State, acts: seq<Action>, more: seq<Action>)
    ensures Run(Run(s, acts), more) == Run(s, acts + more)
  {
    hide Step;
    if |more| == 0 {
      assert acts + more == acts;
    } else {
      RunConcat(s, acts, more[..|more| - 1]);
      assert (acts + more)[..|acts + more| - 1] == acts + more[..|more| - 1];
    }
  }

  lemma RunNothing(s: State)
    ensures Run(s, []) == s
  {
  }

  lemma RunStep(s: State, acts: seq<Action>, a: Action)
    ensures Run(s, acts + [a]) == Step(Run(s, acts), a)
  {
    hide Step;
    assert (acts + [a])[..|acts|] == acts;
  }
}
