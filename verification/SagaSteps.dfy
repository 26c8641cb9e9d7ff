/** Every step of every handler keeps the saga invariant. */
module SagaSteps {
  import opened OrderModel
  import opened Stock
  import opened StockLaws
  import opened Topology
  import opened OrderStore
  import opened Fulfillment
  import opened Saga
  import opened SagaInvariant
  import opened SagaStock

  ghost predicate Ready(s: State, key: Key) {
    Inv(s) && IsRunning(s, key)
  }

  function Source(s: State, key: Key): (e: Event)
    requires key.message < |s.store.outbox|
  {
    s.store.outbox[key.message]
  }

  function Subject(s: State, key: Key): (o: Order)
    requires key.message < |s.store.outbox| && Source(s, key).order in s.store.orders
  {
    s.store.orders[Source(s, key).order]
  }

  /** What a running handler may rely on. */
  lemma Context(s: State, key: Key)
    requires Ready(s, key)
    ensures KeyOk(s, key) && EventOk(s, key.message) && Source(s, key).order in s.store.orders
    ensures OrderOk(s, Source(s, key).order) && IsValidOrderStatus(Subject(s, key).status)
    ensures OnChain(Source(s, key).kind) && (Primary(Source(s, key).kind) == Some(key.queue) || Primary(Source(s, key).kind).None?) ==>
      Tail(s.store.outbox, Source(s, key).order) == key.message
  {
    assert KeyOk(s, key);
    assert EventOk(s, key.message);
    assert OrderOk(s, Source(s, key).order);
    assert Unspent(s, key.message) || Primary(Source(s, key).kind) != Some(key.queue);
  }

  /** `s'` is `s` with the key's order replaced by `b`. */
  ghost predicate Writes(s: State, s': State, key: Key, b: Order) {
    && key.message < |s.store.outbox| && Source(s, key).order in s.store.orders
    && s'.store.orders == s.store.orders[Source(s, key).order := b]
    && s'.store.stock.Some? == s.store.stock.Some?
  }

  ghost predicate Allowed(s: State, key: Key, b: Order)
    requires key.message < |s.store.outbox| && Source(s, key).order in s.store.orders
  {
    Evolves(Subject(s, key), b, Requested(s.store.outbox, Source(s, key).order))
  }

  lemma TermsKeepRows(a: Order, b: Order)
    requires SameTerms(a, b) && LinesSound(a.items)
    ensures LinesSound(b.items)
  {
    forall i, j | 0 <= i < j < |b.items| ensures b.items[i].sku != b.items[j].sku {
      assert Snapshot(a.items[i]) == Snapshot(b.items[i]) && Snapshot(a.items[j]) == Snapshot(b.items[j]);
      assert a.items[i].sku != a.items[j].sku;
    }
    forall i | 0 <= i < |b.items| ensures b.items[i].quantity > 0 && b.items[i].unitPrice >= 0 {
      assert Snapshot(a.items[i]) == Snapshot(b.items[i]);
    }
  }

  /** A fulfilment handler that emits its next event keeps the invariant when the new order matches
      that event. */
  lemma ChainStep(s: State, s': State, key: Key, b: Order, e: Event)
    requires Ready(s, key) && Writes(s, s', key, b) && Allowed(s, key, b)
    requires OnChain(Source(s, key).kind) && Primary(Source(s, key).kind) == Some(key.queue)
    requires e == NextEvent(s.store, Source(s, key), e.kind).(amount := e.amount)
    requires Follows(Source(s, key).kind, e.kind)
    requires s'.store.outbox == s.store.outbox + [e]
    requires s'.runs == s.runs[key := Succeeded] && s'.refused == s.refused
    requires Typestate(b, e.kind, Requested(s.store.outbox, Source(s, key).order), false)
    requires StockLink(s'.store)
    ensures Inv(s') && Evolved(s, s')
  {
    hide Evolved, OrdersOk, EventsOk, KeysOk, StockLink, Typestate, RowsAccepted, LinesSound;
    Context(s, key);
    var id := Source(s, key).order;
    TermsKeepRows(Subject(s, key), b);
    NextOrder(s, s', key, b, e);
    KeyStays(s, s', key);
    LoudStepKeepsInv(s, s', key, e);
  }

  lemma NextOrder(s: State, s': State, key: Key, b: Order, e: Event)
    requires KeysOk(s) && Writes(s, s', key, b) && OrderOk(s, Source(s, key).order)
    requires SameTerms(Subject(s, key), b) && LinesSound(b.items)
    requires s'.store.outbox == s.store.outbox + [e] && e.order == Source(s, key).order && OnChain(e.kind)
    requires s'.runs == s.runs[key := Succeeded]
    requires Typestate(b, e.kind, Requested(s.store.outbox, e.order), false)
    ensures OrderOk(s', e.order)
  {
    hide Typestate, RowsAccepted, LinesSound;
    var k := Key(OrdersCompensate, |s.store.outbox|);
    assert k in s.runs ==> KeyOk(s, k);
    TailAppend(s.store.outbox, e, e.order);
    assert !IsCompensated(s', |s.store.outbox|);
  }

  lemma KeyStays(s: State, s': State, key: Key)
    requires KeyOk(s, key) && s.store.outbox <= s'.store.outbox
    requires s'.store.orders.Keys == s.store.orders.Keys
    requires Unpayable(s.store, Source(s, key).order) ==> Unpayable(s'.store, Source(s, key).order)
    requires key in s'.runs ==> s'.runs[key].Succeeded?
    requires s'.refused == s.refused
    ensures KeyOk(s', key)
  {
    var source := s.store.outbox[key.message];
    assert s'.store.outbox[key.message] == source;
    if Requested(s.store.outbox, source.order) {
      var i :| 0 <= i < |s.store.outbox| && s.store.outbox[i].order == source.order && s.store.outbox[i].kind == CancelRequested;
      assert s'.store.outbox[i] == s.store.outbox[i];
    }
  }

  /** The handler reads or calls out, and goes on. */
  lemma ContinueStep(s: State, key: Key, pc: Pc)
    requires Ready(s, key) && Source(s, key).order in s.store.orders
    requires PcOk(key.queue, pc, Subject(s, key))
    ensures Inv(s.(runs := s.runs[key := Running(pc)])) && Evolved(s, s.(runs := s.runs[key := Running(pc)]))
  {
    hide Evolved, OrdersOk, EventsOk, KeysOk, StockLink, Typestate, OrderFits, EventOk;
    Context(s, key);
    var s' := s.(runs := s.runs[key := Running(pc)]);
    assert IsCompensated(s', Tail(s.store.outbox, Source(s, key).order)) == IsCompensated(s, Tail(s.store.outbox, Source(s, key).order));
    QuietStepKeepsInv(s, s', key);
  }

  /** The handler gives up; on its own account only if it may. */
  lemma GiveUpStep(s: State, s': State, key: Key)
    requires Ready(s, key)
    requires s' == s.(runs := s.runs - {key}, refused := s'.refused)
    requires s'.refused == s.refused
      || (s'.refused == s.refused + {key} && Source(s, key).order in s.store.orders && MayRefuse(s, key))
    ensures Inv(s') && Evolved(s, s')
  {
    hide Evolved, OrdersOk, EventsOk, KeysOk, StockLink, Typestate, OrderFits, EventOk;
    Context(s, key);
    assert IsCompensated(s', Tail(s.store.outbox, Source(s, key).order)) == IsCompensated(s, Tail(s.store.outbox, Source(s, key).order));
    QuietStepKeepsInv(s, s', key);
  }

  /** The handler succeeds without emitting, perhaps changing its order. */
  lemma SilentSuccess(s: State, s': State, key: Key, b: Order)
    requires Ready(s, key) && Writes(s, s', key, b) && Allowed(s, key, b)
    requires s'.store.outbox == s.store.outbox
    requires s'.runs == s.runs[key := Succeeded] && s'.refused == s.refused
    requires match key.queue
      case OrdersFinalize => Requested(s.store.outbox, Source(s, key).order)
      case OrdersCancel => b.status == StatusCancelled || b.status == StatusManualReview
      case OrdersCompensate => true
      case NotificationsEmail => true
      case _ => false
    requires var t := Tail(s.store.outbox, Source(s, key).order);
      t >= 0 && Typestate(b, s.store.outbox[t].kind, Requested(s.store.outbox, Source(s, key).order), IsCompensated(s', t))
    requires StockLink(s'.store)
    ensures Inv(s') && Evolved(s, s')
  {
    hide Evolved, OrdersOk, EventsOk, KeysOk, StockLink, Typestate, LinesSound;
    Context(s, key);
    TermsKeepRows(Subject(s, key), b);
    KeyStays(s, s', key);
    QuietStepKeepsInv(s, s', key);
  }

  // ------------------------------------------------------------ the handlers

  lemma MarkKeepsTerms(order: Order, mark: ReservationStatus)
    requires order.items != []
    ensures var b := order.(items := MarkItems(order.items, mark));
      SameTerms(order, b) && AllItems(b, mark) && forall other :: other != mark ==> !AllItems(b, other)
  {
    var b := order.(items := MarkItems(order.items, mark));
    assert b.items[0].reservation == mark;
  }

  lemma ReleaseKeepsTerms(order: Order)
    requires order.items != []
    ensures var b := order.(items := ReleaseItems(order.items));
      && SameTerms(order, b) && !AllItems(b, ItemReserved)
      && (AllItems(order, ItemReserved) ==> AllItems(b, ItemReleased))
      && (AllItems(order, ItemReleased) ==> AllItems(b, ItemReleased))
      && (AllItems(order, ItemPending) ==> AllItems(b, ItemPending))
      && (AllItems(order, ItemRejected) ==> AllItems(b, ItemRejected))
  {
    var b := order.(items := ReleaseItems(order.items));
    assert b.items[0] == ReleaseItem(order.items[0]);
  }

  lemma OwnOrderOnly(s: State, s': State, key: Key, b: Order)
    requires Ready(s, key) && Writes(s, s', key, b) && SameTerms(Subject(s, key), b)
    ensures OnlyOrder(s, s', Source(s, key).order)
  {
    hide Typestate, EventsOk, KeysOk, StockLink;
    assert OrderOk(s, Source(s, key).order);
    forall x | x in s.store.orders ensures s.store.orders[x].id == x {
      assert OrderOk(s, x);
    }
  }

  lemma MixedMarks(order: Order, a: ReservationStatus, b: ReservationStatus)
    requires order.items != [] && a != b && AllItems(order, a)
    ensures !AllItems(order, b)
  {
    assert order.items[0].reservation == a;
  }

  /** A pending order that holds nothing is reserved, or refused for want of stock. */
  lemma PendingTakesStock(s: State, key: Key)
    requires Ready(s, key) && key.queue == InventoryReserve
    ensures TakeStock(s.store, Source(s, key)).Ok? || TakeStock(s.store, Source(s, key)) == Err(NoStock)
  {
    hide Evolved, OrdersOk, EventsOk, KeysOk, StockOk;
    Context(s, key);
    var source, order := Source(s, key), Subject(s, key);
    if s.store.stock.Some? {
      MixedMarks(order, ItemPending, ItemReserved);
      assert LinkOk(s.store.stock.value, order);
      assert forall k :: 0 <= k < |order.items| ==> !Repeats(order.items, k);
      DistinctLinesNeedStockOnly(s.store.stock.value, source.merchant, source.order, order.items);
    }
  }

  lemma ReserveStep(s: State, key: Key, answer: Answer)
    requires Ready(s, key) && key.queue == InventoryReserve && s.runs[key].pc == Begin
    ensures Inv(Step(s, Work(key, answer))) && Evolved(s, Step(s, Work(key, answer)))
  {
    hide Evolved, OrdersOk, EventsOk, KeysOk, StockLink, RowsAccepted, LinesSound, ReserveAll;
    Context(s, key);
    PendingTakesStock(s, key);
    var source, order := Source(s, key), Subject(s, key);
    var s' := Step(s, Work(key, answer));
    if s'.store.outbox == s.store.outbox {
      if key in s'.runs {
        ContinueStep(s, key, Rejecting);
      } else {
        GiveUpStep(s, s', key);
      }
    } else {
      var b := order.(status := StatusInventoryReserved, items := MarkItems(order.items, ItemReserved));
      MarkKeepsTerms(order, ItemReserved);
      OwnOrderOnly(s, s', key, b);
      StockTaken(s, s', source);
      ChainStep(s, s', key, b, NextEvent(s.store, source, InventoryReserved));
    }
  }

  lemma RejectStep(s: State, key: Key, answer: Answer)
    requires Ready(s, key) && s.runs[key].pc == Rejecting
    ensures Inv(Step(s, Work(key, answer))) && Evolved(s, Step(s, Work(key, answer)))
  {
    hide Evolved, OrdersOk, EventsOk, KeysOk, StockLink, RowsAccepted, LinesSound;
    Context(s, key);
    var source, order := Source(s, key), Subject(s, key);
    var s' := Step(s, Work(key, answer));
    var b := order.(items := MarkItems(order.items, ItemRejected));
    MarkKeepsTerms(order, ItemRejected);
    MixedMarks(order, ItemPending, ItemReserved);
    OwnOrderOnly(s, s', key, b);
    StockUntouched(s, s', source.order);
    ChainStep(s, s', key, b, NextEvent(s.store, source, InventoryRejected));
  }

  /** A write that leaves the lines alone leaves the stock alone. */
  lemma SameItemsKeepStock(s: State, s': State, key: Key, b: Order)
    requires Ready(s, key) && Writes(s, s', key, b) && SameTerms(Subject(s, key), b)
    requires b.items == Subject(s, key).items && s'.store.stock == s.store.stock
    ensures StockLink(s'.store)
  {
    hide Evolved, OrdersOk, EventsOk, KeysOk, StockLink;
    OwnOrderOnly(s, s', key, b);
    StockUntouched(s, s', Source(s, key).order);
  }

  /** A handler that finds nothing left to do. */
  lemma IdleSuccess(s: State, s': State, key: Key)
    requires Ready(s, key) && s'.store == s.store && s'.runs == s.runs[key := Succeeded] && s'.refused == s.refused
    requires Source(s, key).order in s.store.orders
    requires var status := Subject(s, key).status;
      (key.queue == OrdersFinalize && Requested(s.store.outbox, Source(s, key).order))
      || (key.queue == OrdersCancel && (status == StatusCancelled || status == StatusManualReview))
    ensures Inv(s') && Evolved(s, s')
  {
    hide Evolved, OrdersOk, EventsOk, KeysOk, StockLink, LinesSound, Typestate;
    Context(s, key);
    var source, order := Source(s, key), Subject(s, key);
    assert s'.store.orders == s.store.orders[source.order := order];
    var t := Tail(s.store.outbox, source.order);
    assert IsCompensated(s', t) == IsCompensated(s, t);
    SameItemsKeepStock(s, s', key, order);
    SilentSuccess(s, s', key, order);
  }

  lemma PayStep(s: State, key: Key, answer: Answer)
    requires Ready(s, key) && key.queue == PaymentsAuthorize
    ensures Inv(Step(s, Work(key, answer))) && Evolved(s, Step(s, Work(key, answer)))
  {
    hide Evolved, OrdersOk, EventsOk, KeysOk, StockLink, RowsAccepted, LinesSound;
    Context(s, key);
    var source, order := Source(s, key), Subject(s, key);
    var s' := Step(s, Work(key, answer));
    if !s.runs[key].pc.Paying? {
      ContinueStep(s, key, Paying(order.totals.total, !answer.refuses, answer));
    } else if !s.runs[key].pc.approved {
      DeclinedStep(s, s', key, answer);
    } else if s'.store.outbox == s.store.outbox {
      GiveUpStep(s, s', key);
    } else {
      ApprovedStep(s, s', key, answer);
    }
  }

  lemma PaymentFits(order: Order, cancelled: bool, compensated: bool, payment: Payment)
    requires Typestate(order, InventoryReserved, cancelled, compensated) && payment.status == Authorized
    ensures CanTransitionOrderStatus(order.status, StatusPaymentAuthorized) <==> !cancelled
    ensures !cancelled ==>
      Typestate(order.(status := StatusPaymentAuthorized, payment := Some(payment)), PaymentAuthorized, false, false)
    ensures Typestate(order.(payment := Some(FailedPayment(order))), PaymentFailed, cancelled, false)
    ensures IsValidOrderStatus(order.status)
  {
  }

  lemma ApprovedStep(s: State, s': State, key: Key, answer: Answer)
    requires Ready(s, key) && key.queue == PaymentsAuthorize && s.runs[key].pc.Paying? && s.runs[key].pc.approved
    requires s' == Step(s, Work(key, answer)) && s'.store.outbox != s.store.outbox
    ensures Inv(s') && Evolved(s, s')
  {
    hide Evolved, OrdersOk, EventsOk, KeysOk, StockLink, RowsAccepted, LinesSound, Typestate, AdoptedProvider;
    Context(s, key);
    var source, order := Source(s, key), Subject(s, key);
    var payment := Payment(AdoptedProvider(s.store, order, NormalizedProvider(s.runs[key].pc.given.provider)), Authorized, s.runs[key].pc.given.reference);
    var b := order.(status := StatusPaymentAuthorized, payment := Some(payment));
    PaymentFits(order, Requested(s.store.outbox, source.order), IsCompensated(s, key.message), payment);
    SameItemsKeepStock(s, s', key, b);
    ChainStep(s, s', key, b, NextEvent(s.store, source, PaymentAuthorized).(amount := order.totals.total));
  }

  lemma DeclinedStep(s: State, s': State, key: Key, answer: Answer)
    requires Ready(s, key) && key.queue == PaymentsAuthorize && s.runs[key].pc.Paying? && !s.runs[key].pc.approved
    requires s' == Step(s, Work(key, answer))
    ensures Inv(s') && Evolved(s, s')
  {
    hide Evolved, OrdersOk, EventsOk, KeysOk, StockLink, RowsAccepted, LinesSound, Typestate, FailedPayment;
    Context(s, key);
    var source, order := Source(s, key), Subject(s, key);
    var b := order.(payment := Some(FailedPayment(order)));
    PaymentFits(order, Requested(s.store.outbox, source.order), IsCompensated(s, key.message), Payment("", Authorized, ""));
    SameItemsKeepStock(s, s', key, b);
    ChainStep(s, s', key, b, NextEvent(s.store, source, PaymentFailed));
  }

  lemma ShipmentFits(order: Order, cancelled: bool, compensated: bool, failed: Option<Shipment>, booked: Shipment)
    requires Typestate(order, PaymentAuthorized, cancelled, compensated) && booked.status == Booked
    requires failed == order.shipment || failed == Some(Shipment("", BookingFailed))
    ensures CanTransitionOrderStatus(order.status, StatusShipmentCreated) <==> !cancelled
    ensures !cancelled ==>
      Typestate(order.(status := StatusShipmentCreated, shipment := Some(booked)), ShipmentCreated, false, false)
    ensures var b := order.(shipment := failed);
      Typestate(b, ShipmentFailed, cancelled, false) && HasLiveShipment(b) == HasLiveShipment(order)
    ensures IsValidOrderStatus(order.status)
  {
  }

  lemma ShipStep(s: State, key: Key, answer: Answer)
    requires Ready(s, key) && key.queue == ShipmentsCreate
    ensures Inv(Step(s, Work(key, answer))) && Evolved(s, Step(s, Work(key, answer)))
  {
    hide Evolved, OrdersOk, EventsOk, KeysOk, StockLink, RowsAccepted, LinesSound, Typestate;
    Context(s, key);
    var source, order := Source(s, key), Subject(s, key);
    var s' := Step(s, Work(key, answer));
    if !s.runs[key].pc.Booking? {
      ContinueStep(s, key, Booking(!answer.refuses, answer));
    } else {
      ShipmentFits(order, Requested(s.store.outbox, source.order), IsCompensated(s, key.message),
        FailedBooking(s.store, order), Shipment(s.runs[key].pc.given.reference, Booked));
      if s'.store.outbox == s.store.outbox {
        GiveUpStep(s, s', key);
      } else {
        var b := s'.store.orders[source.order];
        SameItemsKeepStock(s, s', key, b);
        ChainStep(s, s', key, b, NextEvent(s.store, source, if s.runs[key].pc.approved then ShipmentCreated else ShipmentFailed));
      }
    }
  }

  /** The write after the order was read as shipped; other steps may have come between. */
  lemma CompletionStep(s: State, key: Key, answer: Answer)
    requires Ready(s, key) && key.queue == OrdersFinalize && s.runs[key].pc == Completing
    ensures Inv(Step(s, Work(key, answer))) && Evolved(s, Step(s, Work(key, answer)))
  {
    hide Evolved, OrdersOk, EventsOk, KeysOk, StockLink, RowsAccepted, LinesSound;
    Context(s, key);
    var source := Source(s, key);
    var s' := Step(s, Work(key, answer));
    if s'.store.outbox != s.store.outbox {
      var b := Subject(s, key).(status := StatusCompleted);
      SameItemsKeepStock(s, s', key, b);
      ChainStep(s, s', key, b, NextEvent(s.store, source, OrderCompleted));
    } else {
      GiveUpStep(s, s', key);
    }
  }

  lemma CompleteStep(s: State, key: Key, answer: Answer)
    requires Ready(s, key) && key.queue == OrdersFinalize
    ensures Inv(Step(s, Work(key, answer))) && Evolved(s, Step(s, Work(key, answer)))
  {
    hide Evolved, OrdersOk, EventsOk, KeysOk, StockLink, RowsAccepted, LinesSound;
    if s.runs[key].pc == Completing {
      CompletionStep(s, key, answer);
    } else {
      Context(s, key);
      var source, order := Source(s, key), Subject(s, key);
      var s' := Step(s, Work(key, answer));
      if s'.runs[key].Running? {
        ContinueStep(s, key, Completing);
      } else {
        IdleSuccess(s, s', key);
      }
    }
  }

  /** Compensating a failure is either allowed, and lands in the compensated state, or refused
      because a cancellation was accepted. */
  lemma CompensationFits(order: Order, kind: EventType, cancelled: bool, before: bool)
    requires order.items != [] && CompensationPlan(kind).Some? && Typestate(order, kind, cancelled, before)
    ensures var status := CompensationPlan(kind).value.0;
      var b := Compensated(order, kind, status);
      if CanTransitionOrderStatus(order.status, status)
      then Typestate(b, kind, cancelled, true) && SameTerms(order, b) && HasLiveShipment(order) == HasLiveShipment(b)
        && (ReleasesStock(kind) ==> !AllItems(b, ItemReserved))
      else cancelled
  {
    ReleaseKeepsTerms(order);
  }

  lemma CompensationStep(s: State, s': State, key: Key, answer: Answer)
    requires Ready(s, key) && key.queue == OrdersCompensate && s' == Step(s, Work(key, answer)) && key in s'.runs
    ensures Inv(s') && Evolved(s, s')
  {
    hide Evolved, OrdersOk, EventsOk, KeysOk, StockLink, RowsAccepted, LinesSound, Typestate, AllItems, Compensated, Release;
    Context(s, key);
    var source, order := Source(s, key), Subject(s, key);
    CompensationFits(order, source.kind, Requested(s.store.outbox, source.order), IsCompensated(s, key.message));
    var b := Compensated(order, source.kind, CompensationPlan(source.kind).value.0);
    CompensationWrites(order, source.kind, CompensationPlan(source.kind).value.0);
    if ReleasesStock(source.kind) {
      OwnOrderOnly(s, s', key, b);
      StockReturned(s, s', source.order);
    } else {
      SameItemsKeepStock(s, s', key, b);
    }
    SilentSuccess(s, s', key, b);
  }

  lemma CompensationWrites(order: Order, kind: EventType, status: OrderStatus)
    ensures Compensated(order, kind, status).status == status
    ensures !ReleasesStock(kind) ==> Compensated(order, kind, status).items == order.items
  {
  }

  lemma CompensateStep(s: State, key: Key, answer: Answer)
    requires Ready(s, key) && key.queue == OrdersCompensate
    ensures Inv(Step(s, Work(key, answer))) && Evolved(s, Step(s, Work(key, answer)))
  {
    hide Evolved, OrdersOk, EventsOk, KeysOk, StockLink, RowsAccepted, LinesSound, Typestate, AllItems, Compensated, Release;
    var s' := Step(s, Work(key, answer));
    if key in s'.runs {
      CompensationStep(s, s', key, answer);
    } else {
      Context(s, key);
      var source, order := Source(s, key), Subject(s, key);
      CompensationFits(order, source.kind, Requested(s.store.outbox, source.order), IsCompensated(s, key.message));
      GiveUpStep(s, s', key);
    }
  }

  lemma NotifyStep(s: State, key: Key, answer: Answer)
    requires Ready(s, key) && key.queue == NotificationsEmail
    ensures Inv(Step(s, Work(key, answer))) && Evolved(s, Step(s, Work(key, answer)))
  {
    hide Evolved, OrdersOk, EventsOk, KeysOk, StockLink, RowsAccepted, LinesSound;
    Context(s, key);
    var source, order := Source(s, key), Subject(s, key);
    var s' := Step(s, Work(key, answer));
    assert s'.store.orders == s.store.orders[source.order := order];
    SameItemsKeepStock(s, s', key, order);
    SilentSuccess(s, s', key, order);
  }

  // ------------------------------------------------------------ cancellation

  /** Once a cancellation was accepted, finalizing it is never refused, whatever the handler read. */
  lemma CancellationFits(order: Order, kind: EventType, compensated: bool)
    requires order.items != [] && Typestate(order, kind, true, compensated)
    ensures HasLiveShipment(order) ==>
      CanTransitionOrderStatus(order.status, StatusManualReview)
      && Typestate(order.(status := StatusManualReview), kind, true, compensated)
    ensures !HasLiveShipment(order) ==>
      var b := order.(status := StatusCancelled, items := ReleaseItems(order.items), payment := VoidPayment(order.payment));
      && CanTransitionOrderStatus(order.status, StatusCancelled)
      && Typestate(b, kind, true, compensated) && SameTerms(order, b) && !AllItems(b, ItemReserved)
  {
    ReleaseKeepsTerms(order);
  }

  /** Emitting the outcome of a cancellation. */
  lemma CancelOutcome(s: State, s': State, key: Key, b: Order, e: Event)
    requires Ready(s, key) && Writes(s, s', key, b) && Allowed(s, key, b)
    requires key.queue == OrdersCancel && Source(s, key).kind == CancelRequested
    requires e == NextEvent(s.store, Source(s, key), e.kind) && Follows(CancelRequested, e.kind)
    requires s'.store.outbox == s.store.outbox + [e]
    requires s'.runs == s.runs[key := Succeeded] && s'.refused == s.refused
    requires b.status == StatusCancelled || b.status == StatusManualReview
    requires var t := Tail(s.store.outbox, Source(s, key).order);
      t >= 0 && Typestate(b, s.store.outbox[t].kind, Requested(s.store.outbox, Source(s, key).order), IsCompensated(s, t))
    requires StockLink(s'.store)
    ensures Inv(s') && Evolved(s, s')
  {
    hide Evolved, OrdersOk, EventsOk, KeysOk, StockLink, Typestate;
    Context(s, key);
    var id := Source(s, key).order;
    TermsKeepRows(Subject(s, key), b);
    TailAppend(s.store.outbox, e, id);
    assert OrderOk(s', id);
    KeyStays(s, s', key);
    LoudStepKeepsInv(s, s', key, e);
  }

  /** The write after the order was read; other steps may have come between. */
  lemma CancellationStep(s: State, key: Key, answer: Answer)
    requires Ready(s, key) && key.queue == OrdersCancel && (s.runs[key].pc == Reviewing || s.runs[key].pc == Cancelling)
    ensures Inv(Step(s, Work(key, answer))) && Evolved(s, Step(s, Work(key, answer)))
  {
    hide Evolved, OrdersOk, EventsOk, KeysOk, StockLink, RowsAccepted, LinesSound, Typestate, AllItems;
    Context(s, key);
    var source, order := Source(s, key), Subject(s, key);
    var t := Tail(s.store.outbox, source.order);
    var s' := Step(s, Work(key, answer));
    assert Requested(s.store.outbox, source.order);
    CancellationFits(order, s.store.outbox[t].kind, IsCompensated(s, t));
    if s.runs[key].pc == Reviewing {
      var b := order.(status := StatusManualReview);
      SameItemsKeepStock(s, s', key, b);
      CancelOutcome(s, s', key, b, NextEvent(s.store, source, ManualReviewRequired));
    } else {
      var b := s'.store.orders[source.order];
      OwnOrderOnly(s, s', key, b);
      StockReturned(s, s', source.order);
      CancelOutcome(s, s', key, b, NextEvent(s.store, source, OrderCancelled));
    }
  }

  lemma CancelStepKeeps(s: State, key: Key, answer: Answer)
    requires Ready(s, key) && key.queue == OrdersCancel
    ensures Inv(Step(s, Work(key, answer))) && Evolved(s, Step(s, Work(key, answer)))
  {
    hide Evolved, OrdersOk, EventsOk, KeysOk, StockLink, RowsAccepted, LinesSound, Typestate, AllItems;
    if s.runs[key].pc == Reviewing || s.runs[key].pc == Cancelling {
      CancellationStep(s, key, answer);
    } else {
      Context(s, key);
      var source, order := Source(s, key), Subject(s, key);
      var t := Tail(s.store.outbox, source.order);
      var s' := Step(s, Work(key, answer));
      assert Requested(s.store.outbox, source.order);
      CancellationFits(order, s.store.outbox[t].kind, IsCompensated(s, t));
      if s'.runs[key].Running? {
        ReadIsStable(order, s.store.outbox[t].kind, IsCompensated(s, t));
        ContinueStep(s, key, s'.runs[key].pc);
      } else {
        IdleSuccess(s, s', key);
      }
    }
  }

  /** With a cancellation accepted the order is not completed, so only a live shipment asks for review. */
  lemma ReadIsStable(order: Order, kind: EventType, compensated: bool)
    requires Typestate(order, kind, true, compensated)
    ensures RequiresManualReview(order) <==> HasLiveShipment(order)
  {
  }
}
