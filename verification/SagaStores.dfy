/** The saga seen from its store: every run is a sequence of store calls, so a run on the in-memory store and
    the same run on the relational one stay in agreement. */
module SagaStores {
  import opened OrderModel
  import opened Stock
  import opened Topology
  import opened OrderStore
  import opened StoreAgreement
  import opened Fulfillment
  import opened Saga
  import opened SagaInvariant
  import opened SagaSteps
  import opened SagaSafety
  import opened SagaTheorems

  // ------------------------------------------------------------ every step is at most one store call

  /** The call one handler step makes. */
  function HandlerCall(queue: Queue, s: Store, pc: Pc, event: Event, answer: Answer): (c: Option<Call>) {
    match queue
    case InventoryReserve =>
      if pc == Rejecting then
        Some(Rejected(event, NextEvent(s, event, InventoryRejected), SystemAudit(event, "inventory.rejected")))
      else if event.kind != OrderCreated || !HasIdentity(event) || answer.refuses then None
      else Some(Call.Reserved(event, NextEvent(s, event, InventoryReserved), SystemAudit(event, "inventory.reserved")))
    case PaymentsAuthorize =>
      if !pc.Paying? then None
      else if pc.approved then
        Some(Authorize(event, NextEvent(s, event, PaymentAuthorized),
          Payment(NormalizedProvider(pc.given.provider), PaymentStatus.Authorized, pc.given.reference), SystemAudit(event, "payment.authorized")))
      else Some(FailPayment(event, NextEvent(s, event, PaymentFailed), SystemAudit(event, "payment.failed")))
    case ShipmentsCreate =>
      if !pc.Booking? then None
      else if pc.approved then
        Some(Ship(event, NextEvent(s, event, ShipmentCreated), Shipment(pc.given.reference, Booked), SystemAudit(event, "shipment.created")))
      else Some(FailShipment(event, NextEvent(s, event, ShipmentFailed), SystemAudit(event, "shipment.failed")))
    case OrdersFinalize =>
      if pc != Completing then None
      else Some(UpdateStatus(event.order, StatusCompleted, NextEvent(s, event, OrderCompleted), SystemAudit(event, "order.completed")))
    case OrdersCancel =>
      if pc == Reviewing then
        Some(UpdateStatus(event.order, StatusManualReview, NextEvent(s, event, ManualReviewRequired),
          SystemAudit(event, "order.manual_review_required")))
      else if pc == Cancelling then
        Some(Cancel(event, NextEvent(s, event, OrderCancelled), SystemAudit(event, "order.cancelled")))
      else None
    case OrdersCompensate =>
      if CompensationPlan(event.kind).None? || !HasIdentity(event) then None
      else Some(Compensate(event, CompensationPlan(event.kind).value.0, SystemAudit(event, CompensationPlan(event.kind).value.1)))
    case NotificationsEmail =>
      if !IsNotificationEvent(event.kind) || !HasIdentity(event) then None
      else Some(Notify(event, SystemAudit(event, "notification.email_queued")))
  }

  /** The call an action makes. */
  ghost function CallOf(s: State, a: Action): (c: Option<Call>) {
    match a
    case Create(merchant, key, order, correlation) =>
      if NewOrder(s.store, merchant, order) && correlation != "" then
        Some(Insert(merchant, key, order, RootEvent(s.store, OrderCreated, order, correlation, order.totals.total),
          AuditLog(order.id, "order.create")))
      else None
    case RequestCancel(id, correlation) =>
      if correlation == "" || id !in s.store.orders || s.store.orders[id].status == StatusCompleted
        || s.store.orders[id].status == StatusCancelled then None
      else Some(UpdateStatus(id, StatusCancellationPending,
          RootEvent(s.store, CancelRequested, s.store.orders[id], correlation, 0), AuditLog(id, "order.cancel_requested")))
    case Work(key, answer) =>
      if IsRunning(s, key) then HandlerCall(key.queue, s.store, s.runs[key].pc, s.store.outbox[key.message], answer) else None
    case _ => None
  }

  function Called(s: Store, c: Option<Call>): (s': Store) {
    if c.None? then s else Apply(s, c.value).0
  }

  lemma HandlerStepIsCall(queue: Queue, s: Store, pc: Pc, event: Event, answer: Answer)
    ensures Advance(queue, s, pc, event, answer).0 == Called(s, HandlerCall(queue, s, pc, event, answer))
  {
    hide RecordInventoryReserved, RecordInventoryRejected, RecordPaymentAuthorized, RecordPaymentFailed, RecordShipmentCreated,
      RecordShipmentFailed, RecordOrderCancelled, RecordNotificationQueued, RecordCompensation, UpdateOrderStatus;
    if queue == InventoryReserve {
      NoStockChangesNothing(s, event, NextEvent(s, event, InventoryReserved), SystemAudit(event, "inventory.reserved"));
    }
  }

  lemma NoStockChangesNothing(s: Store, source: Event, next: Event, audit: AuditLog)
    ensures RecordInventoryReserved(s, source, next, audit).1.Err? ==> RecordInventoryReserved(s, source, next, audit).0 == s
  {
    hide ReserveAll;
  }

  lemma StepIsCall(s: State, a: Action)
    ensures Step(s, a).store == Called(s.store, CallOf(s, a))
  {
    hide Advance, HandlerCall, NewOrder, InsertOrder, UpdateOrderStatus;
    if a.Work? && IsRunning(s, a.key) {
      HandlerStepIsCall(a.key.queue, s.store, s.runs[a.key].pc, s.store.outbox[a.key.message], a.answer);
    }
  }

  /** The calls of a run, in order. */
  ghost function CallsOf(s0: State, acts: seq<Action>): (calls: seq<Call>) {
    if |acts| == 0 then []
    else
      var c := CallOf(Run(s0, acts[..|acts| - 1]), acts[|acts| - 1]);
      CallsOf(s0, acts[..|acts| - 1]) + if c.Some? then [c.value] else []
  }

  /** The store a run ends with is the one its calls make of the store it began with. */
  lemma {:induction false} RunIsCalls(s0: State, acts: seq<Action>)
    ensures Run(s0, acts).store == ApplyAll(s0.store, CallsOf(s0, acts))
  {
    hide Step, CallOf, Apply;
    if |acts| > 0 {
      var front := acts[..|acts| - 1];
      RunIsCalls(s0, front);
      StepIsCall(Run(s0, front), acts[|acts| - 1]);
      var c := CallOf(Run(s0, front), acts[|acts| - 1]);
      if c.Some? {
        assert CallsOf(s0, acts)[..|CallsOf(s0, front)|] == CallsOf(s0, front);
      } else {
        assert CallsOf(s0, acts) == CallsOf(s0, front);
      }
    }
  }

  // ------------------------------------------------------------ no booking fails on a live shipment

  /** When a booking is refused, the order has no live shipment that the refusal could erase. */
  lemma BookingIsFirst(s: State, a: Action, id: string)
    requires Inv(s) && CallOf(s, a).Some?
    ensures !FailsLive(s.store, CallOf(s, a).value, id)
  {
    hide Inv, HandlerCall, NewOrder;
    if a.Work? && CallOf(s, a).value.FailShipment? {
      FailShipmentIsBooking(s, a.key, a.answer);
      NothingShippedYet(s, a.key);
    }
  }

  lemma FailShipmentIsBooking(s: State, key: Key, answer: Answer)
    requires IsRunning(s, key) && CallOf(s, Work(key, answer)).Some? && CallOf(s, Work(key, answer)).value.FailShipment?
    ensures key.queue == ShipmentsCreate && CallOf(s, Work(key, answer)).value.source == s.store.outbox[key.message]
  {
  }

  lemma NothingShippedYet(s: State, key: Key)
    requires Ready(s, key) && key.queue == ShipmentsCreate
    ensures s.store.outbox[key.message].order in s.store.orders
    ensures !HasLiveShipment(s.store.orders[s.store.outbox[key.message].order])
  {
    hide OrdersOk, EventsOk, KeysOk, StockLink, LinesSound;
    Context(s, key);
  }

  /** So in no run is a live shipment erased, and the two stores agree on live shipments too. */
  lemma {:induction false} SagaNeverErases(s0: State, acts: seq<Action>, id: string)
    requires Init(s0)
    ensures !Erased(s0.store, CallsOf(s0, acts), id)
  {
    hide Step, CallOf, Apply, FailsLive, Ships, Inv, Init;
    if |acts| > 0 {
      var front := acts[..|acts| - 1];
      SagaNeverErases(s0, front, id);
      RunIsCalls(s0, front);
      ReachableInv(s0, front);
      var c := CallOf(Run(s0, front), acts[|acts| - 1]);
      if c.Some? {
        BookingIsFirst(Run(s0, front), acts[|acts| - 1], id);
        assert CallsOf(s0, acts)[..|CallsOf(s0, front)|] == CallsOf(s0, front);
      } else {
        assert CallsOf(s0, acts) == CallsOf(s0, front);
      }
    }
  }

  // ------------------------------------------------------------ the same run on either store

  /** `x` runs in memory and `y` on the tables, and a caller cannot tell them apart. */
  ghost predicate Twins(x: State, y: State) {
    && Agree(x.store, y.store)
    && (forall id :: Live(x.store, id) == Live(y.store, id))
    && x.runs == y.runs && x.refused == y.refused
  }

  /** The action's merchant has a plain ID, and its call asks for nothing the tables cannot hold. */
  ghost predicate Fits(y: State, a: Action) {
    && (a.Create? ==> Plain(a.merchant))
    && (CallOf(y, a).Some? ==> !Beyond(y.store, CallOf(y, a).value))
  }

  lemma SameCalls(x: State, y: State, a: Action)
    requires Twins(x, y)
    ensures CallOf(x, a) == CallOf(y, a)
    ensures CallOf(y, a).Some? && Fits(y, a) ==> Sane(y.store, CallOf(y, a).value)
  {
    hide Beyond, LinesSound, AllItems, IndexesAgree;
    match a
    case RequestCancel(id, _) => AgreeOn(x.store, y.store, id);
    case _ =>
  }

  lemma FulfilmentReadsAlike(queue: Queue, a: Store, b: Store, pc: Pc, event: Event, answer: Answer)
    requires queue == InventoryReserve || queue == PaymentsAuthorize || queue == ShipmentsCreate
    requires event.order in a.orders <==> event.order in b.orders
    requires event.order in a.orders ==> a.orders[event.order].totals == b.orders[event.order].totals
    requires HandlerCall(queue, a, pc, event, answer).None? && HandlerCall(queue, b, pc, event, answer).None?
    ensures Advance(queue, a, pc, event, answer).1 == Advance(queue, b, pc, event, answer).1
  {
  }

  lemma EndingReadsAlike(queue: Queue, a: Store, b: Store, pc: Pc, event: Event, answer: Answer)
    requires queue != InventoryReserve && queue != PaymentsAuthorize && queue != ShipmentsCreate
    requires event.order in a.orders <==> event.order in b.orders
    requires event.order in a.orders ==>
      && a.orders[event.order].status == b.orders[event.order].status
      && HasLiveShipment(a.orders[event.order]) == HasLiveShipment(b.orders[event.order])
    requires HandlerCall(queue, a, pc, event, answer).None? && HandlerCall(queue, b, pc, event, answer).None?
    ensures Advance(queue, a, pc, event, answer).1 == Advance(queue, b, pc, event, answer).1
  {
  }

  /** What a handler step without a store call decides. */
  lemma ReadsAlike(queue: Queue, a: Store, b: Store, pc: Pc, event: Event, answer: Answer)
    requires Agree(a, b) && Live(a, event.order) == Live(b, event.order)
    requires HandlerCall(queue, a, pc, event, answer).None? && HandlerCall(queue, b, pc, event, answer).None?
    ensures Advance(queue, a, pc, event, answer).1 == Advance(queue, b, pc, event, answer).1
  {
    hide Agree, HandlerCall, Advance;
    AgreeOn(a, b, event.order);
    if queue == InventoryReserve || queue == PaymentsAuthorize || queue == ShipmentsCreate {
      FulfilmentReadsAlike(queue, a, b, pc, event, answer);
    } else {
      EndingReadsAlike(queue, a, b, pc, event, answer);
    }
  }

  /** What a handler step with a store call decides, from the reply alone. */
  lemma RepliesDecide(queue: Queue, s: Store, pc: Pc, event: Event, answer: Answer)
    requires HandlerCall(queue, s, pc, event, answer).Some?
    requires !StockOrConstraint(Apply(s, HandlerCall(queue, s, pc, event, answer).value).1)
    ensures Advance(queue, s, pc, event, answer).1
         == if Apply(s, HandlerCall(queue, s, pc, event, answer).value).1.Refusal? then Failure else Success
  {
    hide RecordInventoryReserved, RecordInventoryRejected, RecordPaymentAuthorized, RecordPaymentFailed, RecordShipmentCreated,
      RecordShipmentFailed, RecordOrderCancelled, RecordNotificationQueued, RecordCompensation, UpdateOrderStatus;
  }

  lemma SameVerdict(x: State, y: State, key: Key, answer: Answer)
    requires Twins(x, y) && IsRunning(y, key) && Fits(y, Work(key, answer))
    ensures IsRunning(x, key) && x.store.outbox == y.store.outbox
    ensures Advance(key.queue, x.store, y.runs[key].pc, y.store.outbox[key.message], answer).1
         == Advance(key.queue, y.store, y.runs[key].pc, y.store.outbox[key.message], answer).1
  {
    SameCalls(x, y, Work(key, answer));
    hide Advance, HandlerCall, Beyond, Apply, Sane, StockOrConstraint;
    var pc, event := y.runs[key].pc, y.store.outbox[key.message];
    var c := HandlerCall(key.queue, y.store, pc, event, answer);
    if c.None? {
      ReadsAlike(key.queue, x.store, y.store, pc, event, answer);
    } else {
      RelationalRefusesExactlyWhen(x.store, y.store, c.value);
      RepliesDecide(key.queue, x.store, pc, event, answer);
      RepliesDecide(key.queue, y.store, pc, event, answer);
    }
  }

  lemma SameRuns(x: State, y: State, a: Action)
    requires Twins(x, y) && Fits(y, a)
    ensures Step(x, a).runs == Step(y, a).runs && Step(x, a).refused == Step(y, a).refused
  {
    hide Advance, CallOf, NewOrder, InsertOrder, UpdateOrderStatus, Agree;
    assert x.store.outbox == y.store.outbox by {
      SameOutbox(x, y);
    }
    if a.Work? && IsRunning(y, a.key) {
      SameVerdict(x, y, a.key, a.answer);
    }
  }

  lemma SameOutbox(x: State, y: State)
    requires Twins(x, y)
    ensures x.store.outbox == y.store.outbox
  {
  }

  lemma LiveTwins(x: State, y: State, a: Action, id: string)
    requires Twins(x, y) && Inv(y) && CallOf(y, a).Some? && Sane(y.store, CallOf(y, a).value)
    requires !StockOrConstraint(Apply(y.store, CallOf(y, a).value).1)
    ensures Live(Apply(x.store, CallOf(y, a).value).0, id) == Live(Apply(y.store, CallOf(y, a).value).0, id)
  {
    hide CallOf, Apply, Agree, Inv, Sane, StockOrConstraint, Live, FailsLive;
    BookingIsFirst(y, a, id);
    LiveStep(x.store, y.store, CallOf(y, a).value, id, false);
  }

  lemma TwinStores(x: State, y: State, a: Action)
    requires Twins(x, y) && Inv(y) && Fits(y, a)
    ensures Agree(Step(x, a).store, Step(y, a).store) && forall id :: Live(Step(x, a).store, id) == Live(Step(y, a).store, id)
  {
    hide Step, CallOf, Apply, Agree, Inv, Beyond, Sane, StockOrConstraint, Live;
    SameCalls(x, y, a);
    StepIsCall(x, a);
    StepIsCall(y, a);
    var c := CallOf(y, a);
    if c.Some? {
      RelationalRefusesExactlyWhen(x.store, y.store, c.value);
      CallAgrees(x.store, y.store, c.value);
      forall id: string
        ensures Live(Apply(x.store, c.value).0, id) == Live(Apply(y.store, c.value).0, id)
      {
        LiveTwins(x, y, a, id);
      }
    }
  }

  lemma TwinStep(x: State, y: State, a: Action)
    requires Twins(x, y) && Inv(y) && Fits(y, a)
    ensures Twins(Step(x, a), Step(y, a))
  {
    TwinStores(x, y, a);
    SameRuns(x, y, a);
    hide Step, Agree, Live, Inv, Fits;
  }

  /** Every action of the run fits when its turn comes. */
  ghost predicate AllFit(y0: State, acts: seq<Action>) {
    |acts| > 0 ==> AllFit(y0, acts[..|acts| - 1]) && Fits(Run(y0, acts[..|acts| - 1]), acts[|acts| - 1])
  }

  /** The same run on the in-memory store and on the relational one: as long as no action asks for what the
      tables cannot hold, all handlers decide alike, and the stores agree throughout, on live shipments too. */
  lemma {:induction false} SagasAgree(x0: State, y0: State, acts: seq<Action>)
    requires Init(x0) && Init(y0) && x0.store.stock.None? && y0.store.stock.Some? && AllFit(y0, acts)
    ensures Twins(Run(x0, acts), Run(y0, acts))
  {
    if |acts| > 0 {
      hide Twins, Inv, Init, Fits, Step;
      SagasAgree(x0, y0, acts[..|acts| - 1]);
      ReachableInv(y0, acts[..|acts| - 1]);
      TwinStep(Run(x0, acts[..|acts| - 1]), Run(y0, acts[..|acts| - 1]), acts[|acts| - 1]);
    }
  }
}
