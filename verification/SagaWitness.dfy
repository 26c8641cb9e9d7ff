/** Runs of the saga that exist: every move of the status table and every end, for every new order that is in
    stock, and two runs that handle everything and leave an order without an end. */
module SagaWitness {
  import opened OrderModel
  import opened Stock
  import opened StockLaws
  import opened Topology
  import opened OrderStore
  import opened Fulfillment
  import opened Saga
  import opened SagaInvariant
  import opened SagaSafety
  import opened SagaTheorems
  import opened Amounts
  import opened OrderService

  /** One order, in a store with or without tables: its events so far, its status, whether it has a live
      shipment, and the handlers that have succeeded. */
  datatype Sight = Sight(id: string, tables: bool, total: int, kinds: seq<EventType>, status: OrderStatus, shipped: bool,
                         done: set<Key>)

  ghost predicate Looks(order: Order, v: Sight) {
    && order.id == v.id != "" && order.merchant != "" && order.totals.total == v.total
    && order.status == v.status && (HasLiveShipment(order) <==> v.shipped)
  }

  ghost predicate Tells(e: Event, id: string, kind: EventType) {
    e.kind == kind && e.order == id && HasIdentity(e)
  }

  /** The state is as described, and no handler is running. */
  ghost predicate Shows(s: State, v: Sight) {
    && s.store.stock.Some? == v.tables && v.id in s.store.orders && Looks(s.store.orders[v.id], v)
    && |s.store.outbox| == |v.kinds| && (forall i :: 0 <= i < |v.kinds| ==> Tells(s.store.outbox[i], v.id, v.kinds[i]))
    && s.runs.Keys == v.done && (forall k :: k in v.done ==> s.runs[k].Succeeded?)
  }

  const YES: Answer := Answer(false, "p", "r")
  const NO: Answer := Answer(true, "p", "r")

  // ------------------------------------------------------------ one handler

  lemma TwoSteps(s: State, a: Action, b: Action)
    ensures Run(s, [a, b]) == Step(Step(s, a), b)
  {
    hide Step;
    assert [a, b][..1] == [a] && [a][..0] == [];
    assert Run(s, [a]) == Step(Run(s, []), a);
  }

  lemma ThreeSteps(s: State, a: Action, b: Action, c: Action)
    ensures Run(s, [a, b, c]) == Step(Step(Step(s, a), b), c)
  {
    TwoSteps(s, a, b);
    hide Step;
    assert [a, b, c][..2] == [a, b];
  }

  /** The store went from what `v` describes to what `v'` describes. */
  ghost predicate Turns(s: Store, s': Store, v: Sight, v': Sight) {
    && s'.stock.Some? == s.stock.Some? && v'.id == v.id && v'.tables == v.tables
    && v.id in s'.orders && Looks(s'.orders[v.id], v')
    && |v.kinds| <= |v'.kinds| == |s'.outbox| && v.kinds <= v'.kinds && s.outbox <= s'.outbox
    && forall i :: |v.kinds| <= i < |v'.kinds| ==> Tells(s'.outbox[i], v.id, v'.kinds[i])
  }

  lemma Lands(s: State, v: Sight, v': Sight, key: Key, pc: Pc, r: (Store, Verdict))
    requires Shows(s, v) && v'.done == v.done + {key} && key !in v.done
    requires r.1 == Success && Turns(s.store, r.0, v, v')
    ensures Shows(Finish(s.(runs := s.runs[key := Running(pc)]), key, r), v')
  {
    hide Looks, Tells;
    var s' := Finish(s.(runs := s.runs[key := Running(pc)]), key, r);
    forall i | 0 <= i < |v'.kinds| ensures Tells(s'.store.outbox[i], v'.id, v'.kinds[i]) {
      if i < |v.kinds| {
        assert Tells(s.store.outbox[i], v.id, v.kinds[i]);
      }
    }
  }

  /** A handler that finishes in one step. */
  lemma OneWork(s: State, v: Sight, v': Sight, key: Key, answer: Answer)
    requires Shows(s, v) && key.message < |v.kinds| && Binds(key.queue, v.kinds[key.message]) && key !in v.done
    requires v'.done == v.done + {key}
    requires var r := Advance(key.queue, s.store, Begin, s.store.outbox[key.message], answer);
      r.1 == Success && Turns(s.store, r.0, v, v')
    ensures Shows(Run(s, [Start(key), Work(key, answer)]), v')
    ensures Run(s, [Start(key)]).store == s.store
  {
    hide Looks, Advance, Turns, Binds;
    assert Tells(s.store.outbox[key.message], v.id, v.kinds[key.message]);
    assert [Start(key)][..0] == [];
    TwoSteps(s, Start(key), Work(key, answer));
    Lands(s, v, v', key, Begin, Advance(key.queue, s.store, Begin, s.store.outbox[key.message], answer));
    hide Shows, Run;
    assert Step(s, Start(key)) == s.(runs := s.runs[key := Running(Begin)]);
  }

  /** A handler that reads first and writes then. */
  lemma TwoWorks(s: State, v: Sight, v': Sight, key: Key, pc: Pc, answer: Answer)
    requires Shows(s, v) && key.message < |v.kinds| && Binds(key.queue, v.kinds[key.message]) && key !in v.done
    requires v'.done == v.done + {key}
    requires Advance(key.queue, s.store, Begin, s.store.outbox[key.message], answer) == (s.store, Continue(pc))
    requires var r := Advance(key.queue, s.store, pc, s.store.outbox[key.message], answer);
      r.1 == Success && Turns(s.store, r.0, v, v')
    ensures Shows(Run(s, [Start(key), Work(key, answer), Work(key, answer)]), v')
    ensures Run(s, [Start(key), Work(key, answer)]).store == s.store
  {
    hide Looks, Advance, Turns, Binds;
    assert Tells(s.store.outbox[key.message], v.id, v.kinds[key.message]);
    TwoSteps(s, Start(key), Work(key, answer));
    ThreeSteps(s, Start(key), Work(key, answer), Work(key, answer));
    Lands(s, v, v', key, pc, Advance(key.queue, s.store, pc, s.store.outbox[key.message], answer));
    hide Shows, Run;
    var s1 := Step(s, Start(key));
    assert s1 == s.(runs := s.runs[key := Running(Begin)]);
    assert Step(s1, Work(key, answer)) == s.(runs := s.runs[key := Running(pc)]);
  }

  // ------------------------------------------------------------ the hops of a run

  /** These actions lead to what is described, and only the last one changes the store. */
  ghost predicate Leads(s: State, more: seq<Action>, v': Sight) {
    |more| > 0 && Shows(Run(s, more), v') && Run(s, more[..|more| - 1]).store == s.store
  }

  function Done(v: Sight, key: Key, more: seq<EventType>, status: OrderStatus): (v': Sight) {
    v.(kinds := v.kinds + more, status := status, done := v.done + {key})
  }

  ghost predicate Pending(v: Sight, key: Key, kind: EventType) {
    key.message < |v.kinds| && v.kinds[key.message] == kind && key !in v.done
  }

  /** The stock tables have what the order asks for. */
  ghost predicate InStock(s: State, id: string, merchant: string)
    requires s.store.stock.Some? && id in s.store.orders
  {
    var items := s.store.orders[id].items;
    items != [] && ReserveAll(s.store.stock.value, merchant, id, items).Reserved?
  }

  lemma Reserves(s: State, v: Sight, i: nat) returns (more: seq<Action>)
    requires Shows(s, v) && v.status == StatusPendingFulfillment && Pending(v, Key(InventoryReserve, i), OrderCreated)
    requires v.tables ==> InStock(s, v.id, s.store.outbox[i].merchant)
    ensures Leads(s, more, Done(v, Key(InventoryReserve, i), [InventoryReserved], StatusInventoryReserved))
  {
    hide ReserveAll, MarkItems, Run;
    var key := Key(InventoryReserve, i);
    assert Tells(s.store.outbox[i], v.id, OrderCreated);
    OneWork(s, v, Done(v, key, [InventoryReserved], StatusInventoryReserved), key, YES);
    more := [Start(key), Work(key, YES)];
    assert more[..1] == [Start(key)];
  }

  lemma Rejects(s: State, v: Sight, i: nat) returns (more: seq<Action>)
    requires Shows(s, v) && Pending(v, Key(InventoryReserve, i), OrderCreated)
    ensures Leads(s, more, Done(v, Key(InventoryReserve, i), [InventoryRejected], v.status))
  {
    hide MarkItems, Run;
    var key := Key(InventoryReserve, i);
    assert Tells(s.store.outbox[i], v.id, OrderCreated);
    TwoWorks(s, v, Done(v, key, [InventoryRejected], v.status), key, Rejecting, NO);
    more := [Start(key), Work(key, NO), Work(key, NO)];
    assert more[..2] == [Start(key), Work(key, NO)];
  }

  lemma Pays(s: State, v: Sight, i: nat) returns (more: seq<Action>)
    requires Shows(s, v) && v.status == StatusInventoryReserved && Pending(v, Key(PaymentsAuthorize, i), InventoryReserved)
    requires v.tables ==> v.total >= 0
    ensures Leads(s, more, Done(v, Key(PaymentsAuthorize, i), [PaymentAuthorized], StatusPaymentAuthorized))
  {
    hide AdoptedProvider, Run;
    var key := Key(PaymentsAuthorize, i);
    assert Tells(s.store.outbox[i], v.id, InventoryReserved);
    TwoWorks(s, v, Done(v, key, [PaymentAuthorized], StatusPaymentAuthorized), key, Paying(v.total, true, YES), YES);
    more := [Start(key), Work(key, YES), Work(key, YES)];
    assert more[..2] == [Start(key), Work(key, YES)];
  }

  lemma PaymentIsRefused(s: State, v: Sight, i: nat) returns (more: seq<Action>)
    requires Shows(s, v) && Pending(v, Key(PaymentsAuthorize, i), InventoryReserved)
    ensures Leads(s, more, Done(v, Key(PaymentsAuthorize, i), [PaymentFailed], v.status))
  {
    hide FailedPayment, Run;
    var key := Key(PaymentsAuthorize, i);
    assert Tells(s.store.outbox[i], v.id, InventoryReserved);
    TwoWorks(s, v, Done(v, key, [PaymentFailed], v.status), key, Paying(v.total, false, NO), NO);
    more := [Start(key), Work(key, NO), Work(key, NO)];
    assert more[..2] == [Start(key), Work(key, NO)];
  }

  lemma Ships(s: State, v: Sight, i: nat) returns (more: seq<Action>)
    requires Shows(s, v) && v.status == StatusPaymentAuthorized && Pending(v, Key(ShipmentsCreate, i), PaymentAuthorized)
    ensures Leads(s, more, Done(v, Key(ShipmentsCreate, i), [ShipmentCreated], StatusShipmentCreated).(shipped := true))
  {
    hide Run;
    var key := Key(ShipmentsCreate, i);
    assert Tells(s.store.outbox[i], v.id, PaymentAuthorized);
    TwoWorks(s, v, Done(v, key, [ShipmentCreated], StatusShipmentCreated).(shipped := true), key, Booking(true, YES), YES);
    more := [Start(key), Work(key, YES), Work(key, YES)];
    assert more[..2] == [Start(key), Work(key, YES)];
  }

  lemma ShipmentIsRefused(s: State, v: Sight, i: nat) returns (more: seq<Action>)
    requires Shows(s, v) && !v.shipped && Pending(v, Key(ShipmentsCreate, i), PaymentAuthorized)
    ensures Leads(s, more, Done(v, Key(ShipmentsCreate, i), [ShipmentFailed], v.status))
  {
    hide Run;
    var key := Key(ShipmentsCreate, i);
    assert Tells(s.store.outbox[i], v.id, PaymentAuthorized);
    TwoWorks(s, v, Done(v, key, [ShipmentFailed], v.status), key, Booking(false, NO), NO);
    more := [Start(key), Work(key, NO), Work(key, NO)];
    assert more[..2] == [Start(key), Work(key, NO)];
  }

  lemma Completes(s: State, v: Sight, i: nat) returns (more: seq<Action>)
    requires Shows(s, v) && v.status == StatusShipmentCreated && Pending(v, Key(OrdersFinalize, i), ShipmentCreated)
    ensures Leads(s, more, Done(v, Key(OrdersFinalize, i), [OrderCompleted], StatusCompleted))
  {
    hide Run;
    var key := Key(OrdersFinalize, i);
    assert Tells(s.store.outbox[i], v.id, ShipmentCreated);
    TwoWorks(s, v, Done(v, key, [OrderCompleted], StatusCompleted), key, Completing, YES);
    more := [Start(key), Work(key, YES), Work(key, YES)];
    assert more[..2] == [Start(key), Work(key, YES)];
  }

  /** A completion that comes after the order went to manual review does nothing. */
  lemma StandsDown(s: State, v: Sight, i: nat) returns (more: seq<Action>)
    requires Shows(s, v) && v.status == StatusManualReview && Pending(v, Key(OrdersFinalize, i), ShipmentCreated)
    ensures Leads(s, more, Done(v, Key(OrdersFinalize, i), [], v.status))
  {
    hide Run;
    var key := Key(OrdersFinalize, i);
    assert Tells(s.store.outbox[i], v.id, ShipmentCreated);
    OneWork(s, v, Done(v, key, [], v.status), key, YES);
    more := [Start(key), Work(key, YES)];
    assert more[..1] == [Start(key)];
  }

  lemma Cancels(s: State, v: Sight, i: nat) returns (more: seq<Action>)
    requires Shows(s, v) && v.status == StatusCancellationPending && Pending(v, Key(OrdersCancel, i), CancelRequested)
    ensures Leads(s, more,
      if v.shipped then Done(v, Key(OrdersCancel, i), [ManualReviewRequired], StatusManualReview)
      else Done(v, Key(OrdersCancel, i), [OrderCancelled], StatusCancelled))
  {
    hide ReleaseItems, VoidPayment, Release, Run;
    var key := Key(OrdersCancel, i);
    assert Tells(s.store.outbox[i], v.id, CancelRequested);
    if v.shipped {
      TwoWorks(s, v, Done(v, key, [ManualReviewRequired], StatusManualReview), key, Reviewing, YES);
    } else {
      TwoWorks(s, v, Done(v, key, [OrderCancelled], StatusCancelled), key, Cancelling, YES);
    }
    more := [Start(key), Work(key, YES), Work(key, YES)];
    assert more[..2] == [Start(key), Work(key, YES)];
  }

  lemma Compensates(s: State, v: Sight, i: nat, kind: EventType, status: OrderStatus) returns (more: seq<Action>)
    requires Shows(s, v) && Pending(v, Key(OrdersCompensate, i), kind) && CanTransitionOrderStatus(v.status, status)
    requires
      || (kind == InventoryRejected && status == StatusFailed)
      || (kind == PaymentFailed && status == StatusCancelled)
      || (kind == ShipmentFailed && status == StatusCancellationPending)
    ensures Leads(s, more, Done(v, Key(OrdersCompensate, i), [], status))
  {
    hide ReleaseItems, VoidPayment, Release, CanTransitionOrderStatus, Run;
    var key := Key(OrdersCompensate, i);
    assert Tells(s.store.outbox[i], v.id, kind);
    OneWork(s, v, Done(v, key, [], status), key, YES);
    more := [Start(key), Work(key, YES)];
    assert more[..1] == [Start(key)];
  }

  lemma Notifies(s: State, v: Sight, i: nat, kind: EventType) returns (more: seq<Action>)
    requires Shows(s, v) && Pending(v, Key(NotificationsEmail, i), kind) && IsNotificationEvent(kind)
    ensures Leads(s, more, Done(v, Key(NotificationsEmail, i), [], v.status))
  {
    hide Run;
    var key := Key(NotificationsEmail, i);
    assert Tells(s.store.outbox[i], v.id, kind);
    OneWork(s, v, Done(v, key, [], v.status), key, YES);
    more := [Start(key), Work(key, YES)];
    assert more[..1] == [Start(key)];
  }

  lemma Requests(s: State, v: Sight) returns (more: seq<Action>)
    requires Shows(s, v) && CanTransitionOrderStatus(v.status, StatusCancellationPending)
    ensures Leads(s, more, v.(kinds := v.kinds + [CancelRequested], status := StatusCancellationPending))
  {
    more := [RequestCancel(v.id, "c")];
    assert more[..0] == [];
    var v', s' := v.(kinds := v.kinds + [CancelRequested], status := StatusCancellationPending), Step(s, more[0]);
    assert Run(s, more) == s';
    hide Run;
    forall i | 0 <= i < |v'.kinds| ensures Tells(s'.store.outbox[i], v'.id, v'.kinds[i]) {
      if i < |v.kinds| {
        assert Tells(s.store.outbox[i], v.id, v.kinds[i]);
      }
    }
  }

  // ------------------------------------------------------------ the way to completion

  /** A new order in a new store; a relational store accepts its lines and has them in stock. */
  ghost predicate Fulfillable(s0: State, merchant: string, draft: Order) {
    && Init(s0) && NewOrder(s0.store, merchant, draft)
    && (s0.store.stock.Some? ==> RowsAccepted(draft.items) && AllStocked(s0.store.stock.value, merchant, draft.items))
  }

  ghost predicate AllStocked(t: Tables, merchant: string, items: seq<Item>) {
    forall i :: 0 <= i < |items| ==> Stocked(t, merchant, items[i])
  }

  /** Its payment can be recorded too. */
  ghost predicate Payable(s0: State, draft: Order) {
    s0.store.stock.Some? ==> draft.totals.total >= 0
  }

  function Opened(tables: bool, draft: Order): (v: Sight) {
    Sight(draft.id, tables, draft.totals.total, [OrderCreated], StatusPendingFulfillment, false, {})
  }

  function Reserved(tables: bool, draft: Order): (v: Sight) {
    Done(Opened(tables, draft), Key(InventoryReserve, 0), [InventoryReserved], StatusInventoryReserved)
  }

  function Paid(tables: bool, draft: Order): (v: Sight) {
    Done(Reserved(tables, draft), Key(PaymentsAuthorize, 1), [PaymentAuthorized], StatusPaymentAuthorized)
  }

  function Shipped(tables: bool, draft: Order): (v: Sight) {
    Done(Paid(tables, draft), Key(ShipmentsCreate, 2), [ShipmentCreated], StatusShipmentCreated).(shipped := true)
  }

  lemma Onward(s0: State, acts: seq<Action>, more: seq<Action>, v': Sight)
    requires Leads(Run(s0, acts), more, v')
    ensures Shows(Run(s0, acts + more), v')
  {
    hide Run, Shows;
    RunConcat(s0, acts, more);
  }

  lemma StockIsThere(t: Tables, merchant: string, draft: Order)
    requires t.reservations == [] && LinesSound(draft.items) && AllStocked(t, merchant, draft.items)
    ensures ReserveAll(t, merchant, draft.id, draft.items).Reserved?
  {
    hide Stocked;
    assert forall k :: 0 <= k < |draft.items| ==> !Repeats(draft.items, k);
    DistinctLinesNeedStockOnly(t, merchant, draft.id, draft.items);
  }

  lemma Opens(s0: State, merchant: string, key: string, draft: Order) returns (acts: seq<Action>)
    requires Fulfillable(s0, merchant, draft)
    ensures var s := Run(s0, acts);
      && Shows(s, Opened(s0.store.stock.Some?, draft)) && s.store.outbox[0].merchant == merchant
      && (s.store.stock.Some? ==> InStock(s, draft.id, merchant))
  {
    hide RowsAccepted, LinesSound, Stocked, AllItems, ReserveAll;
    acts := [Create(merchant, key, draft, "c")];
    assert acts[..0] == [];
    if s0.store.stock.Some? {
      StockIsThere(s0.store.stock.value, merchant, draft);
    }
  }

  lemma GetsReserved(s0: State, merchant: string, key: string, draft: Order) returns (acts: seq<Action>)
    requires Fulfillable(s0, merchant, draft)
    ensures Shows(Run(s0, acts), Reserved(s0.store.stock.Some?, draft))
  {
    hide Run, Fulfillable, InStock;
    acts := Opens(s0, merchant, key, draft);
    var more := Reserves(Run(s0, acts), Opened(s0.store.stock.Some?, draft), 0);
    Onward(s0, acts, more, Reserved(s0.store.stock.Some?, draft));
    acts := acts + more;
  }

  lemma GetsPaid(s0: State, merchant: string, key: string, draft: Order) returns (acts: seq<Action>)
    requires Fulfillable(s0, merchant, draft) && Payable(s0, draft)
    ensures Shows(Run(s0, acts), Paid(s0.store.stock.Some?, draft))
  {
    hide Run, Fulfillable, Shows;
    acts := GetsReserved(s0, merchant, key, draft);
    var more := Pays(Run(s0, acts), Reserved(s0.store.stock.Some?, draft), 1);
    Onward(s0, acts, more, Paid(s0.store.stock.Some?, draft));
    acts := acts + more;
  }

  lemma GetsShipped(s0: State, merchant: string, key: string, draft: Order) returns (acts: seq<Action>)
    requires Fulfillable(s0, merchant, draft) && Payable(s0, draft)
    ensures Shows(Run(s0, acts), Shipped(s0.store.stock.Some?, draft))
  {
    hide Run, Fulfillable, Shows;
    acts := GetsPaid(s0, merchant, key, draft);
    var more := Ships(Run(s0, acts), Paid(s0.store.stock.Some?, draft), 2);
    Onward(s0, acts, more, Shipped(s0.store.stock.Some?, draft));
    acts := acts + more;
  }

  // ------------------------------------------------------------ the status table

  /** One step takes the order from one status to another. */
  ghost predicate Takes(s0: State, id: string, from: OrderStatus, to: OrderStatus, acts: seq<Action>, a: Action) {
    var s := Run(s0, acts);
    && id in s.store.orders && s.store.orders[id].status == from
    && id in Step(s, a).store.orders && Step(s, a).store.orders[id].status == to
  }

  lemma LastStep(s0: State, acts: seq<Action>, v: Sight, more: seq<Action>, v': Sight) returns (before: seq<Action>, a: Action)
    requires Shows(Run(s0, acts), v) && Leads(Run(s0, acts), more, v') && v'.id == v.id
    ensures Takes(s0, v.id, v.status, v'.status, before, a)
  {
    hide Step;
    before, a := acts + more[..|more| - 1], more[|more| - 1];
    RunConcat(s0, acts, more[..|more| - 1]);
    RunConcat(s0, acts, more);
    RunStep(s0, before, a);
    assert before + [a] == acts + more;
  }

  lemma MovesFromPending(s0: State, merchant: string, key: string, draft: Order, to: OrderStatus)
    returns (acts: seq<Action>, a: Action)
    requires Fulfillable(s0, merchant, draft)
    requires to != StatusPendingFulfillment && CanTransitionOrderStatus(StatusPendingFulfillment, to)
    ensures Takes(s0, draft.id, StatusPendingFulfillment, to, acts, a)
  {
    hide Run, Fulfillable, InStock, Takes;
    var v := Opened(s0.store.stock.Some?, draft);
    acts := Opens(s0, merchant, key, draft);
    var more: seq<Action>;
    if to == StatusInventoryReserved {
      more := Reserves(Run(s0, acts), v, 0);
      acts, a := LastStep(s0, acts, v, more, Done(v, Key(InventoryReserve, 0), [InventoryReserved], to));
    } else if to == StatusCancellationPending {
      more := Requests(Run(s0, acts), v);
      acts, a := LastStep(s0, acts, v, more, v.(kinds := v.kinds + [CancelRequested], status := to));
    } else {
      more := Rejects(Run(s0, acts), v, 0);
      v := Done(v, Key(InventoryReserve, 0), [InventoryRejected], v.status);
      Onward(s0, acts, more, v);
      acts := acts + more;
      more := Compensates(Run(s0, acts), v, 1, InventoryRejected, to);
      acts, a := LastStep(s0, acts, v, more, Done(v, Key(OrdersCompensate, 1), [], to));
    }
  }

  lemma MovesFromReserved(s0: State, merchant: string, key: string, draft: Order, to: OrderStatus)
    returns (acts: seq<Action>, a: Action)
    requires Fulfillable(s0, merchant, draft) && Payable(s0, draft)
    requires to != StatusInventoryReserved && CanTransitionOrderStatus(StatusInventoryReserved, to)
    ensures Takes(s0, draft.id, StatusInventoryReserved, to, acts, a)
  {
    hide Run, Fulfillable, Shows, Takes;
    var v := Reserved(s0.store.stock.Some?, draft);
    acts := GetsReserved(s0, merchant, key, draft);
    var more: seq<Action>;
    if to == StatusPaymentAuthorized {
      more := Pays(Run(s0, acts), v, 1);
      acts, a := LastStep(s0, acts, v, more, Done(v, Key(PaymentsAuthorize, 1), [PaymentAuthorized], to));
    } else if to == StatusCancellationPending {
      more := Requests(Run(s0, acts), v);
      acts, a := LastStep(s0, acts, v, more, v.(kinds := v.kinds + [CancelRequested], status := to));
    } else {
      more := PaymentIsRefused(Run(s0, acts), v, 1);
      v := Done(v, Key(PaymentsAuthorize, 1), [PaymentFailed], v.status);
      Onward(s0, acts, more, v);
      acts := acts + more;
      more := Compensates(Run(s0, acts), v, 2, PaymentFailed, to);
      acts, a := LastStep(s0, acts, v, more, Done(v, Key(OrdersCompensate, 2), [], to));
    }
  }

  lemma MovesFromPaid(s0: State, merchant: string, key: string, draft: Order, to: OrderStatus)
    returns (acts: seq<Action>, a: Action)
    requires Fulfillable(s0, merchant, draft) && Payable(s0, draft)
    requires to != StatusPaymentAuthorized && CanTransitionOrderStatus(StatusPaymentAuthorized, to)
    ensures Takes(s0, draft.id, StatusPaymentAuthorized, to, acts, a)
  {
    hide Run, Fulfillable, Shows, Takes;
    var v := Paid(s0.store.stock.Some?, draft);
    acts := GetsPaid(s0, merchant, key, draft);
    var more: seq<Action>;
    if to == StatusShipmentCreated {
      more := Ships(Run(s0, acts), v, 2);
      acts, a := LastStep(s0, acts, v, more, Shipped(v.tables, draft));
    } else {
      more := Requests(Run(s0, acts), v);
      acts, a := LastStep(s0, acts, v, more, v.(kinds := v.kinds + [CancelRequested], status := to));
    }
  }

  lemma MovesFromShipped(s0: State, merchant: string, key: string, draft: Order, to: OrderStatus)
    returns (acts: seq<Action>, a: Action)
    requires Fulfillable(s0, merchant, draft) && Payable(s0, draft)
    requires to != StatusShipmentCreated && CanTransitionOrderStatus(StatusShipmentCreated, to)
    ensures Takes(s0, draft.id, StatusShipmentCreated, to, acts, a)
  {
    hide Run, Fulfillable, Shows, Takes;
    var v := Shipped(s0.store.stock.Some?, draft);
    acts := GetsShipped(s0, merchant, key, draft);
    var more: seq<Action>;
    if to == StatusCompleted {
      more := Completes(Run(s0, acts), v, 3);
      acts, a := LastStep(s0, acts, v, more, Done(v, Key(OrdersFinalize, 3), [OrderCompleted], to));
    } else {
      more := Requests(Run(s0, acts), v);
      acts, a := LastStep(s0, acts, v, more, v.(kinds := v.kinds + [CancelRequested], status := to));
    }
  }

  lemma MovesFromCancelling(s0: State, merchant: string, key: string, draft: Order, to: OrderStatus)
    returns (acts: seq<Action>, a: Action)
    requires Fulfillable(s0, merchant, draft) && Payable(s0, draft)
    requires to != StatusCancellationPending && CanTransitionOrderStatus(StatusCancellationPending, to)
    ensures Takes(s0, draft.id, StatusCancellationPending, to, acts, a)
  {
    hide Run, Fulfillable, Shows, Takes, InStock;
    var v := Opened(s0.store.stock.Some?, draft);
    if to == StatusManualReview {
      v := Shipped(s0.store.stock.Some?, draft);
      acts := GetsShipped(s0, merchant, key, draft);
    } else {
      acts := Opens(s0, merchant, key, draft);
    }
    var more := Requests(Run(s0, acts), v);
    v := v.(kinds := v.kinds + [CancelRequested], status := StatusCancellationPending);
    Onward(s0, acts, more, v);
    acts := acts + more;
    more := Cancels(Run(s0, acts), v, |v.kinds| - 1);
    acts, a := LastStep(s0, acts, v, more,
      Done(v, Key(OrdersCancel, |v.kinds| - 1), [if v.shipped then ManualReviewRequired else OrderCancelled], to));
  }

  /** The table of status changes is exact: for every new order that is in stock and can be paid, some run
      changes its status in this way if and only if the table allows the change. */
  lemma StatusTableIsExact(s0: State, merchant: string, key: string, draft: Order, from: OrderStatus, to: OrderStatus)
    requires Fulfillable(s0, merchant, draft) && Payable(s0, draft) && from != to
    ensures (exists acts, a :: Takes(s0, draft.id, from, to, acts, a)) <==> CanTransitionOrderStatus(from, to)
  {
    hide Run, Fulfillable, Takes;
    if CanTransitionOrderStatus(from, to) {
      var acts: seq<Action>, a: Action;
      match from
      case StatusPendingFulfillment => acts, a := MovesFromPending(s0, merchant, key, draft, to);
      case StatusInventoryReserved => acts, a := MovesFromReserved(s0, merchant, key, draft, to);
      case StatusPaymentAuthorized => acts, a := MovesFromPaid(s0, merchant, key, draft, to);
      case StatusShipmentCreated => acts, a := MovesFromShipped(s0, merchant, key, draft, to);
      case StatusCancellationPending => acts, a := MovesFromCancelling(s0, merchant, key, draft, to);
    }
    forall acts, a | Takes(s0, draft.id, from, to, acts, a)
      ensures CanTransitionOrderStatus(from, to)
    {
      AllowedMove(s0, draft.id, from, to, acts, a, merchant, draft);
    }
  }

  lemma AllowedMove(
    s0: State, id: string, from: OrderStatus, to: OrderStatus, acts: seq<Action>, a: Action, merchant: string, draft: Order)
    requires Fulfillable(s0, merchant, draft) && Takes(s0, id, from, to, acts, a)
    ensures CanTransitionOrderStatus(from, to)
  {
    hide Run, Init, Inv, CanTransitionOrderStatus, Step;
    ReachableInv(s0, acts);
    StepKeepsInv(Run(s0, acts), a);
    assert Evolves(Run(s0, acts).store.orders[id], Step(Run(s0, acts), a).store.orders[id], Requested(Run(s0, acts).store.outbox, id));
  }

  // ------------------------------------------------------------ the ends

  /** Every queue bound to an event of the order has handled it. */
  ghost predicate AllHandled(v: Sight) {
    forall i: nat, q: Queue :: i < |v.kinds| && Binds(q, v.kinds[i]) ==> Key(q, i) in v.done
  }

  lemma HandledIsSettled(s: State, v: Sight)
    requires Shows(s, v) && AllHandled(v)
    ensures Settled(s) && v.id in s.store.orders && s.store.orders[v.id].status == v.status
  {
    forall i: nat, q: Queue | i < |s.store.outbox| && Binds(q, s.store.outbox[i].kind)
      ensures IsDone(s, Key(q, i))
    {
      assert Tells(s.store.outbox[i], v.id, v.kinds[i]);
    }
  }

  /** The run ends there with everything handled. */
  ghost predicate EndsIn(s0: State, acts: seq<Action>, id: string, status: OrderStatus) {
    var s := Run(s0, acts);
    Settled(s) && id in s.store.orders && s.store.orders[id].status == status
  }

  function Completed(tables: bool, draft: Order): (v: Sight) {
    Done(Done(Shipped(tables, draft), Key(OrdersFinalize, 3), [OrderCompleted], StatusCompleted), Key(NotificationsEmail, 4), [],
      StatusCompleted)
  }

  lemma CompletedIsHandled(tables: bool, draft: Order)
    ensures AllHandled(Completed(tables, draft))
  {
    var v := Completed(tables, draft);
    assert v.kinds == [OrderCreated, InventoryReserved, PaymentAuthorized, ShipmentCreated, OrderCompleted];
  }

  /** Completed and notified. */
  lemma CanComplete(s0: State, merchant: string, key: string, draft: Order) returns (acts: seq<Action>)
    requires Fulfillable(s0, merchant, draft) && Payable(s0, draft)
    ensures EndsIn(s0, acts, draft.id, StatusCompleted)
  {
    hide Run, Fulfillable, Shows, Settled, AllHandled;
    var v := Shipped(s0.store.stock.Some?, draft);
    acts := GetsShipped(s0, merchant, key, draft);
    var more := Completes(Run(s0, acts), v, 3);
    v := Done(v, Key(OrdersFinalize, 3), [OrderCompleted], StatusCompleted);
    Onward(s0, acts, more, v);
    acts := acts + more;
    more := Notifies(Run(s0, acts), v, 4, OrderCompleted);
    v := Completed(s0.store.stock.Some?, draft);
    Onward(s0, acts, more, v);
    acts := acts + more;
    CompletedIsHandled(v.tables, draft);
    HandledIsSettled(Run(s0, acts), v);
  }

  /** Rejected for want of stock, compensated and notified. */
  lemma CanFail(s0: State, merchant: string, key: string, draft: Order) returns (acts: seq<Action>)
    requires Fulfillable(s0, merchant, draft)
    ensures EndsIn(s0, acts, draft.id, StatusFailed)
  {
    hide Run, Fulfillable, Shows, Settled, InStock;
    var v := Opened(s0.store.stock.Some?, draft);
    acts := Opens(s0, merchant, key, draft);
    var more := Rejects(Run(s0, acts), v, 0);
    v := Done(v, Key(InventoryReserve, 0), [InventoryRejected], v.status);
    Onward(s0, acts, more, v);
    acts := acts + more;
    acts, v := IsCompensatedAndNotified(s0, acts, v, 1, InventoryRejected, StatusFailed);
    HandledIsSettled(Run(s0, acts), v);
  }

  /** Refused by the payment provider, compensated and notified. */
  lemma CanBeCancelled(s0: State, merchant: string, key: string, draft: Order) returns (acts: seq<Action>)
    requires Fulfillable(s0, merchant, draft)
    ensures EndsIn(s0, acts, draft.id, StatusCancelled)
  {
    hide Run, Fulfillable, Shows, Settled;
    var v := Reserved(s0.store.stock.Some?, draft);
    acts := GetsReserved(s0, merchant, key, draft);
    var more := PaymentIsRefused(Run(s0, acts), v, 1);
    v := Done(v, Key(PaymentsAuthorize, 1), [PaymentFailed], v.status);
    Onward(s0, acts, more, v);
    acts := acts + more;
    acts, v := IsCompensatedAndNotified(s0, acts, v, 2, PaymentFailed, StatusCancelled);
    HandledIsSettled(Run(s0, acts), v);
  }

  lemma IsCompensatedAndNotified(s0: State, acts: seq<Action>, v: Sight, i: nat, kind: EventType, status: OrderStatus)
    returns (acts': seq<Action>, v': Sight)
    requires Shows(Run(s0, acts), v) && CanTransitionOrderStatus(v.status, status)
    requires Pending(v, Key(OrdersCompensate, i), kind) && Key(NotificationsEmail, i) !in v.done
    requires
      || (kind == InventoryRejected && status == StatusFailed)
      || (kind == PaymentFailed && status == StatusCancelled)
      || (kind == ShipmentFailed && status == StatusCancellationPending)
    ensures v' == v.(status := status, done := v.done + {Key(OrdersCompensate, i)} + {Key(NotificationsEmail, i)})
    ensures Shows(Run(s0, acts'), v')
  {
    hide Run, Shows, CanTransitionOrderStatus;
    var more := Compensates(Run(s0, acts), v, i, kind, status);
    v' := Done(v, Key(OrdersCompensate, i), [], status);
    Onward(s0, acts, more, v');
    acts' := acts + more;
    more := Notifies(Run(s0, acts'), v', i, kind);
    v' := Done(v', Key(NotificationsEmail, i), [], status);
    Onward(s0, acts', more, v');
    acts' := acts' + more;
  }

  function Reviewed(tables: bool, draft: Order): (v: Sight) {
    var v := Shipped(tables, draft);
    v.(kinds := v.kinds + [CancelRequested] + [ManualReviewRequired], status := StatusManualReview,
       done := v.done + {Key(OrdersCancel, 4)})
  }

  /** Cancelled by the customer after the carrier had booked it. */
  lemma GetsReviewed(s0: State, merchant: string, key: string, draft: Order) returns (acts: seq<Action>)
    requires Fulfillable(s0, merchant, draft) && Payable(s0, draft)
    ensures Shows(Run(s0, acts), Reviewed(s0.store.stock.Some?, draft))
  {
    hide Run, Fulfillable, Shows;
    var v := Shipped(s0.store.stock.Some?, draft);
    acts := GetsShipped(s0, merchant, key, draft);
    var more := Requests(Run(s0, acts), v);
    v := v.(kinds := v.kinds + [CancelRequested], status := StatusCancellationPending);
    Onward(s0, acts, more, v);
    acts := acts + more;
    more := Cancels(Run(s0, acts), v, 4);
    Onward(s0, acts, more, Reviewed(s0.store.stock.Some?, draft));
    acts := acts + more;
  }

  function AfterReview(tables: bool, draft: Order): (v: Sight) {
    Done(Done(Reviewed(tables, draft), Key(OrdersFinalize, 3), [], StatusManualReview), Key(NotificationsEmail, 5), [],
      StatusManualReview)
  }

  lemma AfterReviewIsHandled(tables: bool, draft: Order)
    ensures AllHandled(AfterReview(tables, draft))
  {
    var v, s := AfterReview(tables, draft), Shipped(tables, draft);
    assert s.kinds == [OrderCreated, InventoryReserved, PaymentAuthorized, ShipmentCreated];
    assert s.done == {Key(InventoryReserve, 0), Key(PaymentsAuthorize, 1), Key(ShipmentsCreate, 2)};
    hide Shipped;
    assert v.kinds == s.kinds + [CancelRequested, ManualReviewRequired];
  }

  /** In manual review and notified; the late completion stands down. */
  lemma CanNeedReview(s0: State, merchant: string, key: string, draft: Order) returns (acts: seq<Action>)
    requires Fulfillable(s0, merchant, draft) && Payable(s0, draft)
    ensures EndsIn(s0, acts, draft.id, StatusManualReview)
  {
    hide Run, Fulfillable, Shows, Settled, AllHandled;
    var v := Reviewed(s0.store.stock.Some?, draft);
    acts := GetsReviewed(s0, merchant, key, draft);
    var more := StandsDown(Run(s0, acts), v, 3);
    v := Done(v, Key(OrdersFinalize, 3), [], v.status);
    Onward(s0, acts, more, v);
    acts := acts + more;
    more := Notifies(Run(s0, acts), v, 5, ManualReviewRequired);
    v := AfterReview(s0.store.stock.Some?, draft);
    Onward(s0, acts, more, v);
    acts := acts + more;
    AfterReviewIsHandled(v.tables, draft);
    HandledIsSettled(Run(s0, acts), v);
  }

  /** Every new order that is in stock and can be paid can reach every end. */
  lemma EveryEndIsReachable(s0: State, merchant: string, key: string, draft: Order, status: OrderStatus)
    returns (acts: seq<Action>)
    requires Fulfillable(s0, merchant, draft) && Payable(s0, draft) && IsTerminal(status)
    ensures EndsIn(s0, acts, draft.id, status)
  {
    hide EndsIn, Fulfillable;
    match status
    case StatusCompleted => acts := CanComplete(s0, merchant, key, draft);
    case StatusFailed => acts := CanFail(s0, merchant, key, draft);
    case StatusCancelled => acts := CanBeCancelled(s0, merchant, key, draft);
    case StatusManualReview => acts := CanNeedReview(s0, merchant, key, draft);
  }

  // ------------------------------------------------------------ no end

  function Stuck(tables: bool, draft: Order): (v: Sight) {
    var v := Paid(tables, draft);
    v.(kinds := v.kinds + [ShipmentFailed], status := StatusCancellationPending,
       done := v.done + {Key(ShipmentsCreate, 2)} + {Key(OrdersCompensate, 3)} + {Key(NotificationsEmail, 3)})
  }

  lemma StuckIsHandled(tables: bool, draft: Order)
    ensures AllHandled(Stuck(tables, draft))
  {
    var v := Stuck(tables, draft);
    assert v.kinds == [OrderCreated, InventoryReserved, PaymentAuthorized, ShipmentFailed];
  }

  /** Any such order can also stay without an end: reserved, paid, refused by the carrier, compensated,
      everything handled, and still cancellation_pending. */
  lemma OrderCanStayPending(s0: State, merchant: string, key: string, draft: Order) returns (acts: seq<Action>)
    requires Fulfillable(s0, merchant, draft) && Payable(s0, draft)
    ensures EndsIn(s0, acts, draft.id, StatusCancellationPending)
  {
    hide Run, Fulfillable, Shows, Settled, AllHandled;
    var v := Paid(s0.store.stock.Some?, draft);
    acts := GetsPaid(s0, merchant, key, draft);
    var more := ShipmentIsRefused(Run(s0, acts), v, 2);
    v := Done(v, Key(ShipmentsCreate, 2), [ShipmentFailed], v.status);
    Onward(s0, acts, more, v);
    acts := acts + more;
    acts, v := IsCompensatedAndNotified(s0, acts, v, 3, ShipmentFailed, StatusCancellationPending);
    StuckIsHandled(v.tables, draft);
    HandledIsSettled(Run(s0, acts), v);
  }

  lemma CannotPay(s: State, v: Sight)
    requires Shows(s, v) && v.status == StatusInventoryReserved && v.tables && v.total < 0
    requires v.kinds == [OrderCreated, InventoryReserved] && v.done == {Key(InventoryReserve, 0)}
    ensures var k := Key(PaymentsAuthorize, 1); var s' := Run(s, [Start(k), Work(k, YES), Work(k, YES)]);
      s'.store == s.store && s'.runs == s.runs && k in s'.refused
  {
    hide Run;
    var k := Key(PaymentsAuthorize, 1);
    assert Tells(s.store.outbox[1], v.id, InventoryReserved);
    ThreeSteps(s, Start(k), Work(k, YES), Work(k, YES));
    var s2 := Step(Step(s, Start(k)), Work(k, YES));
    assert s2.runs[k] == Running(Paying(v.total, true, YES)) && s2.store == s.store;
  }

  lemma BlockedIsSettled(s: State, s': State, v: Sight)
    requires Shows(s, v) && v.kinds == [OrderCreated, InventoryReserved] && v.done == {Key(InventoryReserve, 0)}
    requires s'.store == s.store && s'.runs == s.runs && Key(PaymentsAuthorize, 1) in s'.refused
    ensures Settled(s') && v.id in s'.store.orders && s'.store.orders[v.id].status == v.status
  {
    forall i: nat, q: Queue | i < |s'.store.outbox| && Binds(q, s'.store.outbox[i].kind)
      ensures IsDone(s', Key(q, i)) || Key(q, i) in s'.refused
    {
      assert Tells(s.store.outbox[i], v.id, v.kinds[i]);
    }
  }

  /** A new order with a negative total in the relational store can end like this: reserved, approved by the
      payment provider, refused by the payment table, everything handled, and still inventory_reserved. */
  lemma OrderCanStayReserved(s0: State, merchant: string, key: string, draft: Order) returns (acts: seq<Action>)
    requires Fulfillable(s0, merchant, draft) && !Payable(s0, draft)
    ensures EndsIn(s0, acts, draft.id, StatusInventoryReserved)
  {
    hide Run, Fulfillable, Shows, Settled;
    var v, k := Reserved(true, draft), Key(PaymentsAuthorize, 1);
    assert v.done == {Key(InventoryReserve, 0)};
    acts := GetsReserved(s0, merchant, key, draft);
    CannotPay(Run(s0, acts), v);
    RunConcat(s0, acts, [Start(k), Work(k, YES), Work(k, YES)]);
    BlockedIsSettled(Run(s0, acts), Run(s0, acts + [Start(k), Work(k, YES), Work(k, YES)]), v);
    acts := acts + [Start(k), Work(k, YES), Work(k, YES)];
  }

  /** Every accepted command whose sum overflows into the upper half of 64 bits can get there, if its lines
      are in stock and its quantities fit the table. */
  lemma OverflowingCommandIsBlocked(s0: State, merchant: string, key: string, c: Command, id: string)
    returns (acts: seq<Action>)
    requires Init(s0) && s0.store.stock.Some? && Acceptable(merchant, key, c) && id != ""
    requires (Exact(c.lines) + SHIPPING) % (2 * TWO_63) >= TWO_63
    requires var items := Drafts(c.lines); forall i :: 0 <= i < |items| ==>
      items[i].quantity < INTEGER_LIMIT && Stocked(s0.store.stock.value, merchant, items[i])
    ensures EndsIn(s0, acts, id, StatusInventoryReserved)
  {
    hide EndsIn, Stocked, Acceptable;
    var draft := Drafted(merchant, c, id);
    TotalIsNegativeWhen(merchant, key, c, id);
    AcceptedCommandIsNew(s0.store, merchant, key, c, id);
    acts := OrderCanStayReserved(s0, merchant, key, draft);
  }
}
