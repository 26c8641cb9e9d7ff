/** What the outside world answered decides what is recorded: stock and the inventory service, the payment
    provider and the carrier. A log of the answers is read off the run's actions alone. */
module SagaAnswers {
  import opened OrderModel
  import opened Stock
  import opened StockLaws
  import opened Topology
  import opened OrderStore
  import opened Fulfillment
  import opened Saga
  import opened SagaInvariant
  import opened SagaSteps
  import opened SagaSafety
  import opened SagaTheorems
  import opened SagaHistory

  /** What a handler was told, and whether the stock tables were short of one of the order's lines then. */
  datatype Told = Told(answer: Answer, short: bool)

  /** Some line of the order fits no single active warehouse of the merchant. */
  ghost predicate Short(s: Store, e: Event) {
    && s.stock.Some? && e.order in s.orders
    && exists i :: 0 <= i < |s.orders[e.order].items| && !Stocked(s.stock.value, e.merchant, s.orders[e.order].items[i])
  }

  /** The answer given to the first step of the latest attempt at handling a message. */
  ghost function Heard(s0: State, acts: seq<Action>, key: Key): (t: Option<Told>) {
    if |acts| == 0 then None
    else
      var before, a, heard := Run(s0, acts[..|acts| - 1]), acts[|acts| - 1], Heard(s0, acts[..|acts| - 1], key);
      if a == Start(key) && key !in before.runs then None
      else if a.Work? && a.key == key && IsRunning(before, key) && heard.None? then
        Some(Told(a.answer, Short(before.store, before.store.outbox[key.message])))
      else heard
  }

  // ------------------------------------------------------------ one handler step

  /** What a step that goes on remembers. */
  lemma ContinueSays(queue: Queue, s: Store, pc: Pc, event: Event, answer: Answer)
    requires Advance(queue, s, pc, event, answer).1.Continue?
    ensures var pc' := Advance(queue, s, pc, event, answer).1.pc;
      && Advance(queue, s, pc, event, answer).0 == s && pc' != Begin
      && (pc' == Rejecting ==>
            queue == InventoryReserve && pc != Rejecting && (answer.refuses || (event.order in s.orders && TakeStock(s, event) == Err(NoStock))))
      && (pc'.Paying? ==> queue == PaymentsAuthorize && !pc.Paying? && pc'.given == answer)
      && (pc'.Booking? ==> queue == ShipmentsCreate && !pc.Booking? && pc'.given == answer)
      && (pc'.Paying? || pc'.Booking? ==> event.order in s.orders ==> pc'.approved == !answer.refuses)
  {
    hide ReserveAll, CanTransitionOrderStatus;
  }

  /** What the handler of an emitted event was told or remembered. */
  ghost predicate EmitterSays(queue: Queue, s: Store, pc: Pc, event: Event, answer: Answer, kind: EventType) {
    match kind
    case InventoryReserved =>
      queue == InventoryReserve && pc != Rejecting && !answer.refuses && event.order in s.orders && TakeStock(s, event).Ok?
    case InventoryRejected => queue == InventoryReserve && pc == Rejecting
    case PaymentAuthorized => queue == PaymentsAuthorize && pc.Paying? && pc.approved
    case PaymentFailed => queue == PaymentsAuthorize && pc.Paying? && !pc.approved
    case ShipmentCreated => queue == ShipmentsCreate && pc.Booking? && pc.approved
    case ShipmentFailed => queue == ShipmentsCreate && pc.Booking? && !pc.approved
    case OrderCreated => false
    case _ => true
  }

  /** One event was appended, on behalf of this one. */
  ghost predicate Appended(s: Store, s': Store, event: Event) {
    && |s'.outbox| == |s.outbox| + 1 && s.outbox <= s'.outbox
    && s'.outbox[|s.outbox|].causation == event.id && s'.outbox[|s.outbox|].order == event.order
  }

  lemma FulfilmentEmits(queue: Queue, s: Store, pc: Pc, event: Event, answer: Answer)
    requires queue == InventoryReserve || queue == PaymentsAuthorize || queue == ShipmentsCreate
    requires Advance(queue, s, pc, event, answer).0.outbox != s.outbox
    ensures var s' := Advance(queue, s, pc, event, answer).0;
      Appended(s, s', event) && EmitterSays(queue, s, pc, event, answer, s'.outbox[|s.outbox|].kind)
  {
    hide ReserveAll, MarkItems, FailedPayment, AdoptedProvider, CanTransitionOrderStatus;
  }

  lemma EndingEmits(queue: Queue, s: Store, pc: Pc, event: Event, answer: Answer)
    requires queue != InventoryReserve && queue != PaymentsAuthorize && queue != ShipmentsCreate
    requires Advance(queue, s, pc, event, answer).0.outbox != s.outbox
    ensures var s' := Advance(queue, s, pc, event, answer).0;
      Appended(s, s', event) && EmitterSays(queue, s, pc, event, answer, s'.outbox[|s.outbox|].kind)
  {
    hide Release, ReleaseItems, VoidPayment, HasLiveShipment, CanTransitionOrderStatus;
  }

  /** What a step that emits was told. */
  lemma EmissionSays(queue: Queue, s: Store, pc: Pc, event: Event, answer: Answer)
    requires Advance(queue, s, pc, event, answer).0.outbox != s.outbox
    ensures var s' := Advance(queue, s, pc, event, answer).0;
      Appended(s, s', event) && EmitterSays(queue, s, pc, event, answer, s'.outbox[|s.outbox|].kind)
  {
    hide Advance, Appended, EmitterSays;
    if queue == InventoryReserve || queue == PaymentsAuthorize || queue == ShipmentsCreate {
      FulfilmentEmits(queue, s, pc, event, answer);
    } else {
      EndingEmits(queue, s, pc, event, answer);
    }
  }

  /** A pending order's stock is refused exactly if it is short. */
  lemma StockDecides(s: State, key: Key)
    requires Ready(s, key) && key.queue == InventoryReserve
    ensures Source(s, key).order in s.store.orders
    ensures TakeStock(s.store, Source(s, key)).Ok? <==> !Short(s.store, Source(s, key))
  {
    hide Evolved, OrdersOk, EventsOk, KeysOk, StockOk, Stocked;
    Context(s, key);
    var source, order := Source(s, key), Subject(s, key);
    if s.store.stock.Some? {
      MixedMarks(order, ItemPending, ItemReserved);
      assert LinkOk(s.store.stock.value, order);
      assert forall k :: 0 <= k < |order.items| ==> !Repeats(order.items, k);
      DistinctLinesNeedStockOnly(s.store.stock.value, source.merchant, source.order, order.items);
    }
  }

  // ------------------------------------------------------------ the log and the running handlers

  /** A running handler has heard nothing yet, or remembers what it heard. */
  ghost predicate PcHeard(pc: Pc, heard: Option<Told>) {
    match pc
    case Begin => heard.None?
    case Rejecting => heard.Some? && (heard.value.answer.refuses || heard.value.short)
    case Paying(_, approved, given) => heard.Some? && heard.value.answer == given && approved == !given.refuses
    case Booking(approved, given) => heard.Some? && heard.value.answer == given && approved == !given.refuses
    case _ => true
  }

  /** What an event says about the answer its cause's handler was given. */
  ghost predicate EventHeard(kind: EventType, heard: Option<Told>) {
    match kind
    case InventoryReserved => heard.Some? && !heard.value.answer.refuses && !heard.value.short
    case InventoryRejected => heard.Some? && (heard.value.answer.refuses || heard.value.short)
    case PaymentAuthorized => heard.Some? && !heard.value.answer.refuses
    case PaymentFailed => heard.Some? && heard.value.answer.refuses
    case ShipmentCreated => heard.Some? && !heard.value.answer.refuses
    case ShipmentFailed => heard.Some? && heard.value.answer.refuses
    case _ => true
  }

  /** The consumer that decides on a fulfilment event. */
  function Decider(kind: EventType): (q: Queue) {
    match kind
    case InventoryReserved => InventoryReserve
    case InventoryRejected => InventoryReserve
    case PaymentAuthorized => PaymentsAuthorize
    case PaymentFailed => PaymentsAuthorize
    case ShipmentCreated => ShipmentsCreate
    case ShipmentFailed => ShipmentsCreate
    case _ => OrdersFinalize
  }

  ghost predicate RunsHeard(s0: State, acts: seq<Action>) {
    var s := Run(s0, acts);
    forall key :: key in s.runs && s.runs[key].Running? ==> PcHeard(s.runs[key].pc, Heard(s0, acts, key))
  }

  ghost predicate EventsHeard(s0: State, acts: seq<Action>) {
    forall i: nat :: i < |Run(s0, acts).store.outbox| ==> EventHeardAt(s0, acts, i)
  }

  /** Event `i` agrees with what its decider heard. */
  ghost predicate EventHeardAt(s0: State, acts: seq<Action>, i: nat)
    requires i < |Run(s0, acts).store.outbox|
  {
    var e := Run(s0, acts).store.outbox[i];
    EventHeard(e.kind, Heard(s0, acts, Key(Decider(e.kind), e.causation)))
  }

  lemma HeardStep(s0: State, acts: seq<Action>, a: Action, key: Key)
    ensures var before, heard := Run(s0, acts), Heard(s0, acts, key);
      Heard(s0, acts + [a], key) ==
        if a == Start(key) && key !in before.runs then None
        else if a.Work? && a.key == key && IsRunning(before, key) && heard.None? then
          Some(Told(a.answer, Short(before.store, before.store.outbox[key.message])))
        else heard
  {
    hide Run, Short;
    assert (acts + [a])[..|acts|] == acts;
  }

  /** The running step keeps what its own handler remembers in line with the log. */
  lemma OwnRunHeard(s: State, key: Key, answer: Answer, heard: Option<Told>, heard': Option<Told>)
    requires Ready(s, key) && PcHeard(s.runs[key].pc, heard)
    requires heard' == if heard.None? then Some(Told(answer, Short(s.store, Source(s, key)))) else heard
    ensures var s' := Step(s, Work(key, answer));
      key in s'.runs && s'.runs[key].Running? ==> PcHeard(s'.runs[key].pc, heard')
  {
    hide Evolved, OrdersOk, EventsOk, StockLink, Short, TakeStock;
    assert KeyOk(s, key);
    var pc := s.runs[key].pc;
    var r := Advance(key.queue, s.store, pc, Source(s, key), answer);
    if r.1.Continue? {
      ContinueSays(key.queue, s.store, pc, Source(s, key), answer);
      hide Advance;
      if r.1.pc == Rejecting && !answer.refuses {
        StockDecides(s, key);
      }
    }
  }

  lemma OtherRun(s: State, a: Action, key: Key)
    requires key in Step(s, a).runs && Step(s, a).runs[key].Running? && !(a.Work? && a.key == key)
    ensures (a == Start(key) && key !in s.runs && Step(s, a).runs[key] == Running(Begin)) || (key in s.runs && s.runs[key] == Step(s, a).runs[key] && a != Start(key))
      || (key in s.runs && a == Start(key) && s.runs[key] == Step(s, a).runs[key])
  {
    hide Advance;
  }

  lemma RunsHeardStep(s0: State, acts: seq<Action>, a: Action)
    requires Init(s0) && RunsHeard(s0, acts)
    ensures RunsHeard(s0, acts + [a])
  {
    RunStep(s0, acts, a);
    var s, s' := Run(s0, acts), Run(s0, acts + [a]);
    ReachableInv(s0, acts);
    hide Run, Inv, Step, Heard;
    forall key | key in s'.runs && s'.runs[key].Running?
      ensures PcHeard(s'.runs[key].pc, Heard(s0, acts + [a], key))
    {
      HeardStep(s0, acts, a, key);
      if a.Work? && a.key == key {
        NotRunningStays(s, key, a.answer);
        OwnRunHeard(s, key, a.answer, Heard(s0, acts, key), Heard(s0, acts + [a], key));
      } else {
        OtherRun(s, a, key);
      }
    }
  }

  lemma NotRunningStays(s: State, key: Key, answer: Answer)
    requires key in Step(s, Work(key, answer)).runs && Step(s, Work(key, answer)).runs[key].Running? && KeysOk(s)
    ensures IsRunning(s, key)
  {
    assert key in s.runs ==> KeyOk(s, key);
  }

  // ------------------------------------------------------------ the log and the events

  /** What was heard about a message stays once its handler has succeeded. */
  lemma HeardStays(s0: State, acts: seq<Action>, a: Action, key: Key)
    requires IsDone(Run(s0, acts), key)
    ensures Heard(s0, acts + [a], key) == Heard(s0, acts, key)
  {
    hide Run, Heard, Short;
    HeardStep(s0, acts, a, key);
  }

  /** The decider of an event has succeeded. */
  lemma DeciderIsDone(s: State, i: nat)
    requires EventsOk(s) && i < |s.store.outbox| && OnChain(s.store.outbox[i].kind) && !IsRoot(s.store.outbox[i].kind)
    requires s.store.outbox[i].kind != OrderCompleted
    ensures IsDone(s, Key(Decider(s.store.outbox[i].kind), s.store.outbox[i].causation))
  {
    AnEvent(s, i);
  }

  /** A handler's step that appends an event has heard what the event says. */
  lemma WorkEventHeard(s: State, key: Key, answer: Answer, heard: Option<Told>, heard': Option<Told>)
    requires Ready(s, key) && Step(s, Work(key, answer)).store.outbox != s.store.outbox && PcHeard(s.runs[key].pc, heard)
    requires heard' == if heard.None? then Some(Told(answer, Short(s.store, Source(s, key)))) else heard
    ensures var s', n := Step(s, Work(key, answer)), |s.store.outbox|;
      && |s'.store.outbox| == n + 1 && s.store.outbox <= s'.store.outbox && s'.store.outbox[n].causation == key.message
      && EventHeard(s'.store.outbox[n].kind, heard')
      && (Decider(s'.store.outbox[n].kind) == key.queue || forall h :: EventHeard(s'.store.outbox[n].kind, h))
  {
    hide Evolved, OrdersOk, EventsOk, StockLink, Short, TakeStock, Advance;
    AnEvent(s, key.message);
    assert KeyOk(s, key);
    EmissionSays(key.queue, s.store, s.runs[key].pc, Source(s, key), answer);
    if key.queue == InventoryReserve {
      StockDecides(s, key);
    }
  }

  /** Only handlers and the API append events, and the API only root events. */
  lemma OtherEventIsRoot(s: State, a: Action)
    requires Step(s, a).store.outbox != s.store.outbox && !(a.Work? && IsRunning(s, a.key))
    ensures var s', n := Step(s, a), |s.store.outbox|;
      |s'.store.outbox| == n + 1 && s.store.outbox <= s'.store.outbox && IsRoot(s'.store.outbox[n].kind)
  {
    hide NewOrder, RowsAccepted, CanTransitionOrderStatus;
  }

  lemma SaysNothing(kind: EventType, heard: Option<Told>)
    requires !OnChain(kind) || IsRoot(kind) || kind == OrderCompleted
    ensures EventHeard(kind, heard)
  {
  }

  lemma NewEventHeard(s0: State, acts: seq<Action>, a: Action)
    requires Init(s0) && RunsHeard(s0, acts) && Run(s0, acts + [a]).store.outbox != Run(s0, acts).store.outbox
    ensures var outbox, outbox' := Run(s0, acts).store.outbox, Run(s0, acts + [a]).store.outbox;
      |outbox'| == |outbox| + 1 && EventHeardAt(s0, acts + [a], |outbox|)
  {
    RunStep(s0, acts, a);
    ReachableInv(s0, acts);
    hide Run, Inv, Step, Heard, EventHeard, Decider, Init, PcHeard;
    var s, s' := Run(s0, acts), Run(s0, acts + [a]);
    if a.Work? && IsRunning(s, a.key) {
      HeardStep(s0, acts, a, a.key);
      WorkEventHeard(s, a.key, a.answer, Heard(s0, acts, a.key), Heard(s0, acts + [a], a.key));
    } else {
      OtherEventIsRoot(s, a);
      var e := s'.store.outbox[|s.store.outbox|];
      SaysNothing(e.kind, Heard(s0, acts + [a], Key(Decider(e.kind), e.causation)));
    }
  }

  lemma EventHeardStep(s0: State, acts: seq<Action>, a: Action, i: nat)
    requires Init(s0) && RunsHeard(s0, acts) && EventsHeard(s0, acts) && i < |Run(s0, acts + [a]).store.outbox|
    ensures EventHeardAt(s0, acts + [a], i)
  {
    hide Run, EventHeardAt, Init, RunsHeard;
    if i < |Run(s0, acts).store.outbox| {
      assert EventHeardAt(s0, acts, i);
      OldEventHeard(s0, acts, a, i);
    } else {
      NewEventHeard(s0, acts, a);
    }
  }

  lemma EventsHeardStep(s0: State, acts: seq<Action>, a: Action)
    requires Init(s0) && RunsHeard(s0, acts) && EventsHeard(s0, acts)
    ensures EventsHeard(s0, acts + [a])
  {
    forall i: nat | i < |Run(s0, acts + [a]).store.outbox|
      ensures EventHeardAt(s0, acts + [a], i)
    {
      EventHeardStep(s0, acts, a, i);
    }
  }

  lemma OldEventHeard(s0: State, acts: seq<Action>, a: Action, i: nat)
    requires Init(s0) && i < |Run(s0, acts).store.outbox| && EventHeardAt(s0, acts, i)
    ensures i < |Run(s0, acts + [a]).store.outbox| && EventHeardAt(s0, acts + [a], i)
  {
    RunStep(s0, acts, a);
    ReachableInv(s0, acts);
    StepKeepsInv(Run(s0, acts), a);
    hide Run, Init, OrdersOk, KeysOk, StockLink, Heard, Step, EventHeard, Decider;
    var s := Run(s0, acts);
    var e := s.store.outbox[i];
    assert Run(s0, acts + [a]).store.outbox[i] == e;
    if OnChain(e.kind) && !IsRoot(e.kind) && e.kind != OrderCompleted {
      DeciderIsDone(s, i);
      HeardStays(s0, acts, a, Key(Decider(e.kind), e.causation));
    } else {
      SaysNothing(e.kind, Heard(s0, acts + [a], Key(Decider(e.kind), e.causation)));
    }
  }

  lemma {:induction false} AnswersHold(s0: State, acts: seq<Action>)
    requires Init(s0)
    ensures RunsHeard(s0, acts) && EventsHeard(s0, acts)
  {
    if |acts| > 0 {
      var front := acts[..|acts| - 1];
      hide RunsHeard, EventsHeard, Init;
      AnswersHold(s0, front);
      assert acts == front + [acts[|acts| - 1]];
      RunsHeardStep(s0, front, acts[|acts| - 1]);
      EventsHeardStep(s0, front, acts[|acts| - 1]);
    }
  }

  /** In every run an inventory.reserved event exists only if the inventory service did not refuse and no line
      was short, inventory.rejected only if it refused or a line was short; payment.authorized only if the
      payment provider approved, payment.failed only if it refused; shipment.created only if the carrier
      accepted, shipment.failed only if it refused. The answer is the one given to the attempt at the event's
      cause that succeeded. */
  lemma AnswersDecide(s0: State, acts: seq<Action>, i: nat)
    requires Init(s0) && i < |Run(s0, acts).store.outbox|
    ensures var e := Run(s0, acts).store.outbox[i];
      && (e.kind == InventoryReserved || e.kind == InventoryRejected ==>
            var heard := Heard(s0, acts, Key(InventoryReserve, e.causation));
            heard.Some? && (e.kind == InventoryReserved <==> !heard.value.answer.refuses && !heard.value.short))
      && (e.kind == PaymentAuthorized || e.kind == PaymentFailed ==>
            var heard := Heard(s0, acts, Key(PaymentsAuthorize, e.causation));
            heard.Some? && (e.kind == PaymentAuthorized <==> !heard.value.answer.refuses))
      && (e.kind == ShipmentCreated || e.kind == ShipmentFailed ==>
            var heard := Heard(s0, acts, Key(ShipmentsCreate, e.causation));
            heard.Some? && (e.kind == ShipmentCreated <==> !heard.value.answer.refuses))
  {
    hide Run, Init, Heard, RunsHeard;
    AnswersHold(s0, acts);
    assert EventHeardAt(s0, acts, i);
  }

  // ------------------------------------------------------------ what is recorded of the answers

  /** The provider named in an answer, or the built-in one. */
  function ProviderGiven(answer: Answer): (p: string) {
    if answer.provider == "" then "fake-payment" else answer.provider
  }

  /** The payment holds the approved authorization, perhaps voided since. */
  ghost predicate HoldsPayment(order: Order, answer: Answer) {
    && order.payment.Some?
    && order.payment.value.provider == ProviderGiven(answer) && order.payment.value.authorizationId == answer.reference
    && (order.payment.value.status == Authorized || order.payment.value.status == Voided)
  }

  ghost predicate HoldsShipment(order: Order, answer: Answer) {
    order.shipment == Some(Shipment(answer.reference, Booked))
  }

  /** The payment and the shipment of an order after a handler's step, by what the step emits for it. */
  ghost predicate RecordsAs(x: Order, y: Order, emitted: Option<EventType>, pc: Pc) {
    && (match emitted
        case Some(PaymentAuthorized) => pc.Paying? && HoldsPayment(y, pc.given)
        case Some(PaymentFailed) => y.payment == Some(FailedPayment(x))
        case _ => y.payment == x.payment || y.payment == VoidPayment(x.payment))
    && (match emitted
        case Some(ShipmentCreated) => pc.Booking? && HoldsShipment(y, pc.given)
        case Some(ShipmentFailed) => true
        case _ => y.shipment == x.shipment)
  }

  function Emitted(s: Store, s': Store): (kind: Option<EventType>) {
    if |s'.outbox| > |s.outbox| then Some(s'.outbox[|s.outbox|].kind) else None
  }

  /** A handler's step changes its own order only, and records as above. */
  ghost predicate Recorded(s: Store, s': Store, id: string, pc: Pc) {
    && id in s.orders && s'.orders.Keys == s.orders.Keys
    && (forall x :: x in s.orders && x != id ==> s'.orders[x] == s.orders[x])
    && RecordsAs(s.orders[id], s'.orders[id], Emitted(s, s'), pc)
  }

  lemma ReserveRecords(s: Store, pc: Pc, event: Event, answer: Answer)
    requires event.order in s.orders
    ensures Recorded(s, Advance(InventoryReserve, s, pc, event, answer).0, event.order, pc)
  {
    hide ReserveAll, MarkItems, CanTransitionOrderStatus;
  }

  lemma PayRecords(s: Store, pc: Pc, event: Event, answer: Answer)
    requires event.order in s.orders
    ensures Recorded(s, Advance(PaymentsAuthorize, s, pc, event, answer).0, event.order, pc)
  {
    hide FailedPayment, CanTransitionOrderStatus;
  }

  lemma ShipRecords(s: Store, pc: Pc, event: Event, answer: Answer)
    requires event.order in s.orders
    ensures Recorded(s, Advance(ShipmentsCreate, s, pc, event, answer).0, event.order, pc)
  {
    hide CanTransitionOrderStatus, FailedBooking;
  }

  lemma FinalizeRecords(s: Store, pc: Pc, event: Event, answer: Answer)
    requires event.order in s.orders
    ensures Recorded(s, Advance(OrdersFinalize, s, pc, event, answer).0, event.order, pc)
  {
    hide CanTransitionOrderStatus;
  }

  lemma CancelRecords(s: Store, pc: Pc, event: Event, answer: Answer)
    requires event.order in s.orders
    ensures Recorded(s, Advance(OrdersCancel, s, pc, event, answer).0, event.order, pc)
  {
    hide Release, ReleaseItems, VoidPayment, HasLiveShipment, CanTransitionOrderStatus;
  }

  lemma CompensateRecords(s: Store, pc: Pc, event: Event, answer: Answer)
    requires event.order in s.orders
    ensures Recorded(s, Advance(OrdersCompensate, s, pc, event, answer).0, event.order, pc)
  {
    hide Release, ReleaseItems, VoidPayment, CanTransitionOrderStatus;
  }

  lemma NotifyRecords(s: Store, pc: Pc, event: Event, answer: Answer)
    requires event.order in s.orders
    ensures Recorded(s, Advance(NotificationsEmail, s, pc, event, answer).0, event.order, pc)
  {
    hide Release;
  }

  lemma HandlerRecords(queue: Queue, s: Store, pc: Pc, event: Event, answer: Answer)
    requires event.order in s.orders
    ensures Recorded(s, Advance(queue, s, pc, event, answer).0, event.order, pc)
  {
    hide Advance, Recorded;
    match queue
    case InventoryReserve => ReserveRecords(s, pc, event, answer);
    case PaymentsAuthorize => PayRecords(s, pc, event, answer);
    case ShipmentsCreate => ShipRecords(s, pc, event, answer);
    case OrdersFinalize => FinalizeRecords(s, pc, event, answer);
    case OrdersCancel => CancelRecords(s, pc, event, answer);
    case OrdersCompensate => CompensateRecords(s, pc, event, answer);
    case NotificationsEmail => NotifyRecords(s, pc, event, answer);
  }

  /** A later fulfilment event of the same order is of a later stage. */
  lemma LaterStage(outbox: seq<Event>, outbox': seq<Event>, i: nat)
    requires StagesGrow(outbox') && outbox <= outbox' && |outbox'| == |outbox| + 1 && i < |outbox|
    requires outbox'[|outbox|].order == outbox[i].order && OnChain(outbox[i].kind) && OnChain(outbox'[|outbox|].kind)
    ensures Stage(outbox[i].kind) < Stage(outbox'[|outbox|].kind)
  {
    assert outbox'[i] == outbox[i];
  }

  /** The payment behind a payment.authorized event is left alone or voided, and the shipment behind a
      shipment.created event is left alone. */
  ghost predicate KeepsRecord(s: Store, s': Store, e: Event) {
    && e.order in s.orders && e.order in s'.orders
    && var x, y := s.orders[e.order], s'.orders[e.order];
    && (e.kind == PaymentAuthorized ==> y.payment == x.payment || y.payment == VoidPayment(x.payment))
    && (e.kind == ShipmentCreated ==> y.shipment == x.shipment)
  }

  lemma RecordKept(s: State, a: Action, i: nat)
    requires Inv(s) && StagesGrow(Step(s, a).store.outbox) && i < |s.store.outbox|
    ensures KeepsRecord(s.store, Step(s, a).store, s.store.outbox[i])
  {
    hide OrdersOk, KeysOk, StockLink, EventsOk, StagesGrow, KeepsRecord, Step;
    AnEvent(s, i);
    if a.Work? && IsRunning(s, a.key) {
      WorkKeepsRecord(s, a.key, a.answer, i);
    } else {
      OtherKeepsRecord(s, a, s.store.outbox[i]);
    }
  }

  lemma OtherKeepsRecord(s: State, a: Action, e: Event)
    requires e.order in s.store.orders && !(a.Work? && IsRunning(s, a.key))
    ensures KeepsRecord(s.store, Step(s, a).store, e)
  {
    hide RowsAccepted, LinesSound, AllItems, CanTransitionOrderStatus;
  }

  lemma WorkKeepsRecord(s: State, key: Key, answer: Answer, i: nat)
    requires Ready(s, key) && StagesGrow(Step(s, Work(key, answer)).store.outbox) && i < |s.store.outbox| && EventOk(s, i)
    ensures KeepsRecord(s.store, Step(s, Work(key, answer)).store, s.store.outbox[i])
  {
    hide OrdersOk, KeysOk, StockLink, EventsOk, StagesGrow, VoidPayment, FailedPayment, HoldsPayment, HoldsShipment;
    AnEvent(s, key.message);
    var event, pc := s.store.outbox[key.message], s.runs[key].pc;
    var s' := Advance(key.queue, s.store, pc, event, answer).0;
    HandlerRecords(key.queue, s.store, pc, event, answer);
    if s'.outbox != s.store.outbox {
      EmissionSays(key.queue, s.store, pc, event, answer);
      hide Advance, EmitterSays;
      if s.store.outbox[i].order == event.order && OnChain(s.store.outbox[i].kind) && OnChain(s'.outbox[|s.store.outbox|].kind) {
        LaterStage(s.store.outbox, s'.outbox, i);
      }
    }
  }

  /** What the order of event `i` holds is what the event's decider was given. */
  ghost predicate RecordAt(s0: State, acts: seq<Action>, i: nat)
    requires i < |Run(s0, acts).store.outbox|
  {
    var s := Run(s0, acts);
    var e := s.store.outbox[i];
    var heard := Heard(s0, acts, Key(Decider(e.kind), e.causation));
    && e.order in s.store.orders
    && (e.kind == PaymentAuthorized ==> heard.Some? && HoldsPayment(s.store.orders[e.order], heard.value.answer))
    && (e.kind == ShipmentCreated ==> heard.Some? && HoldsShipment(s.store.orders[e.order], heard.value.answer))
  }

  /** Keeping the record keeps what it says of an answer. */
  lemma RecordCarries(s: Store, s': Store, e: Event, answer: Answer)
    requires KeepsRecord(s, s', e)
    ensures e.kind == PaymentAuthorized && HoldsPayment(s.orders[e.order], answer) ==> HoldsPayment(s'.orders[e.order], answer)
    ensures e.kind == ShipmentCreated && HoldsShipment(s.orders[e.order], answer) ==> HoldsShipment(s'.orders[e.order], answer)
  {
  }

  lemma StepKeepsRecord(s0: State, acts: seq<Action>, a: Action, i: nat)
    requires Init(s0) && i < |Run(s0, acts).store.outbox|
    ensures var s, s' := Run(s0, acts), Run(s0, acts + [a]);
      && i < |s'.store.outbox| && s'.store.outbox[i] == s.store.outbox[i]
      && KeepsRecord(s.store, s'.store, s.store.outbox[i])
      && (OnChain(s.store.outbox[i].kind) && !IsRoot(s.store.outbox[i].kind) && s.store.outbox[i].kind != OrderCompleted ==>
            IsDone(s, Key(Decider(s.store.outbox[i].kind), s.store.outbox[i].causation)))
  {
    RunStep(s0, acts, a);
    ReachableInv(s0, acts);
    StepKeepsInv(Run(s0, acts), a);
    HistoryHolds(s0, acts + [a]);
    hide Run, Init, OrdersOk, KeysOk, StockLink, EventsOk, Step, StagesGrow, NoForks, KeepsRecord, IsDone, Decider;
    var s := Run(s0, acts);
    RecordKept(s, a, i);
    if OnChain(s.store.outbox[i].kind) && !IsRoot(s.store.outbox[i].kind) && s.store.outbox[i].kind != OrderCompleted {
      DeciderIsDone(s, i);
    }
  }

  lemma OldRecord(s0: State, acts: seq<Action>, a: Action, i: nat)
    requires Init(s0) && i < |Run(s0, acts).store.outbox| && RecordAt(s0, acts, i)
    ensures i < |Run(s0, acts + [a]).store.outbox| && RecordAt(s0, acts + [a], i)
  {
    hide Run, Init, Heard, HoldsPayment, HoldsShipment, Decider;
    StepKeepsRecord(s0, acts, a, i);
    var s := Run(s0, acts);
    var e := s.store.outbox[i];
    if e.kind == PaymentAuthorized || e.kind == ShipmentCreated {
      var key := Key(Decider(e.kind), e.causation);
      HeardStays(s0, acts, a, key);
      RecordCarries(s.store, Run(s0, acts + [a]).store, e, Heard(s0, acts, key).value.answer);
    }
  }

  /** A step that emits an authorization or a shipment records what its handler was given. */
  lemma WorkRecords(s: State, key: Key, answer: Answer)
    requires Ready(s, key) && Step(s, Work(key, answer)).store.outbox != s.store.outbox
    ensures var s', n := Step(s, Work(key, answer)), |s.store.outbox|;
      && n < |s'.store.outbox|
      && var e, pc := s'.store.outbox[n], s.runs[key].pc;
      && e.order in s'.store.orders
      && (e.kind == PaymentAuthorized ==> pc.Paying? && HoldsPayment(s'.store.orders[e.order], pc.given))
      && (e.kind == ShipmentCreated ==> pc.Booking? && HoldsShipment(s'.store.orders[e.order], pc.given))
  {
    hide OrdersOk, KeysOk, StockLink, EventsOk, HoldsPayment, HoldsShipment;
    AnEvent(s, key.message);
    var event, pc := s.store.outbox[key.message], s.runs[key].pc;
    HandlerRecords(key.queue, s.store, pc, event, answer);
    EmissionSays(key.queue, s.store, pc, event, answer);
    hide Advance, EmitterSays;
  }

  /** Event `i` of a state and an answer agree with its order's record. */
  ghost predicate RecordIn(s: State, i: nat, heard: Option<Told>)
    requires i < |s.store.outbox|
  {
    var e := s.store.outbox[i];
    && e.order in s.store.orders
    && (e.kind == PaymentAuthorized ==> heard.Some? && HoldsPayment(s.store.orders[e.order], heard.value.answer))
    && (e.kind == ShipmentCreated ==> heard.Some? && HoldsShipment(s.store.orders[e.order], heard.value.answer))
  }

  lemma WorkRecordsHeard(s: State, key: Key, answer: Answer, heard: Option<Told>, heard': Option<Told>)
    requires Ready(s, key) && Step(s, Work(key, answer)).store.outbox != s.store.outbox && PcHeard(s.runs[key].pc, heard)
    requires heard' == if heard.None? then Some(Told(answer, Short(s.store, Source(s, key)))) else heard
    ensures |s.store.outbox| < |Step(s, Work(key, answer)).store.outbox|
    ensures RecordIn(Step(s, Work(key, answer)), |s.store.outbox|, heard')
  {
    hide Inv, Step, HoldsPayment, HoldsShipment, Short;
    WorkRecords(s, key, answer);
  }

  lemma NoRecordYet(s: State, i: nat, heard: Option<Told>)
    requires EventsOk(s) && i < |s.store.outbox| && IsRoot(s.store.outbox[i].kind)
    ensures RecordIn(s, i, heard)
  {
    AnEvent(s, i);
  }

  /** An event that has a record was decided by its own key's handler. */
  lemma NewRecord(s0: State, acts: seq<Action>, a: Action)
    requires Init(s0) && RunsHeard(s0, acts) && Run(s0, acts + [a]).store.outbox != Run(s0, acts).store.outbox
    ensures var n := |Run(s0, acts).store.outbox|;
      |Run(s0, acts + [a]).store.outbox| == n + 1 && RecordAt(s0, acts + [a], n)
  {
    RunStep(s0, acts, a);
    ReachableInv(s0, acts);
    ReachableInv(s0, acts + [a]);
    var s, s' := Run(s0, acts), Run(s0, acts + [a]);
    assert EventsOk(s');
    hide Run, Inv, EventsOk, Step, Heard, Init, HoldsPayment, HoldsShipment, Short, PcHeard, EventHeard;
    if a.Work? && IsRunning(s, a.key) {
      HeardStep(s0, acts, a, a.key);
      WorkEventHeard(s, a.key, a.answer, Heard(s0, acts, a.key), Heard(s0, acts + [a], a.key));
      WorkRecordsHeard(s, a.key, a.answer, Heard(s0, acts, a.key), Heard(s0, acts + [a], a.key));
      DecidedKinds(s'.store.outbox[|s.store.outbox|].kind);
    } else {
      OtherEventIsRoot(s, a);
      var e := s'.store.outbox[|s.store.outbox|];
      NoRecordYet(s', |s.store.outbox|, Heard(s0, acts + [a], Key(Decider(e.kind), e.causation)));
    }
  }

  lemma DecidedKinds(kind: EventType)
    ensures kind == PaymentAuthorized || kind == ShipmentCreated ==> !EventHeard(kind, None)
  {
  }

  lemma RecordStep(s0: State, acts: seq<Action>, a: Action, i: nat)
    requires Init(s0) && i < |Run(s0, acts + [a]).store.outbox|
    requires i < |Run(s0, acts).store.outbox| ==> RecordAt(s0, acts, i)
    ensures RecordAt(s0, acts + [a], i)
  {
    hide Run, RecordAt, RunsHeard, EventsHeard, Init;
    if i < |Run(s0, acts).store.outbox| {
      OldRecord(s0, acts, a, i);
    } else {
      AnswersHold(s0, acts);
      NewRecord(s0, acts, a);
    }
  }

  lemma {:induction false} RecordsHold(s0: State, acts: seq<Action>, i: nat)
    requires Init(s0) && i < |Run(s0, acts).store.outbox|
    ensures RecordAt(s0, acts, i)
  {
    if |acts| > 0 {
      var front, a := acts[..|acts| - 1], acts[|acts| - 1];
      if i < |Run(s0, front).store.outbox| {
        RecordsHold(s0, front, i);
      }
      hide Run, RecordAt, Init;
      assert acts == front + [a];
      RecordStep(s0, front, a, i);
    }
  }

  /** In every run, from a payment.authorized event on the order's payment carries the provider and the
      authorization ID of the provider's approval, and from a shipment.created event on the order's shipment
      is the one the carrier booked. */
  lemma RecordsAreAnswers(s0: State, acts: seq<Action>, i: nat)
    requires Init(s0) && i < |Run(s0, acts).store.outbox|
    ensures var s := Run(s0, acts); var e := s.store.outbox[i];
      && e.order in s.store.orders
      && (e.kind == PaymentAuthorized ==>
            var heard := Heard(s0, acts, Key(PaymentsAuthorize, e.causation));
            && heard.Some? && s.store.orders[e.order].payment.Some?
            && var answer, payment := heard.value.answer, s.store.orders[e.order].payment.value;
            && payment.authorizationId == answer.reference
            && payment.provider == (if answer.provider == "" then "fake-payment" else answer.provider))
      && (e.kind == ShipmentCreated ==>
            var heard := Heard(s0, acts, Key(ShipmentsCreate, e.causation));
            heard.Some? && s.store.orders[e.order].shipment == Some(Shipment(heard.value.answer.reference, Booked)))
  {
    hide Run, Init, Heard;
    RecordsHold(s0, acts, i);
  }
}
