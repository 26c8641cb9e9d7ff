/** The saga invariant over whole runs, and what it says about orders. */
module SagaSafety {
  import opened OrderModel
  import opened Stock
  import opened StockLaws
  import opened Topology
  import opened OrderStore
  import opened Fulfillment
  import opened Saga
  import opened SagaInvariant
  import opened SagaStock
  import opened SagaSteps

  // ------------------------------------------------------------ the API's steps

  /** A root event is appended, and only order `id` is written. */
  ghost predicate RootStep(s: State, s': State, id: string, e: Event) {
    && s'.store.outbox == s.store.outbox + [e]
    && IsRoot(e.kind) && e.id == e.causation == |s.store.outbox| && e.order == id && HasIdentity(e)
    && id in s'.store.orders && e.merchant == s'.store.orders[id].merchant
    && s'.store.orders.Keys == s.store.orders.Keys + {id} && s'.store.stock.Some? == s.store.stock.Some?
    && (forall x :: x in s.store.orders && x != id ==> s'.store.orders[x] == s.store.orders[x])
    && s'.runs == s.runs && s'.refused == s.refused
    && (e.kind == OrderCreated ==> id !in s.store.orders)
    && (e.kind == CancelRequested ==>
          && id in s.store.orders
          && s'.store.orders[id] == s.store.orders[id].(status := StatusCancellationPending)
          && CanTransitionOrderStatus(s.store.orders[id].status, StatusCancellationPending))
  }

  lemma RootOldEvent(s: State, s': State, id: string, e: Event, i: nat)
    requires RootStep(s, s', id, e) && i < |s.store.outbox| && EventOk(s, i)
    ensures EventOk(s', i)
  {
    var x := s.store.outbox[i];
    TailAppend(s.store.outbox, e, x.order);
    assert Unspent(s', i) == Unspent(s, i);
    if !IsRoot(x.kind) {
      assert !Unspent(s', x.causation);
    }
  }

  lemma RootEvents(s: State, s': State, id: string, e: Event)
    requires RootStep(s, s', id, e) && EventsOk(s) && KeysOk(s)
    ensures EventsOk(s')
  {
    var n := |s.store.outbox|;
    forall i: nat | i < |s'.store.outbox| ensures EventOk(s', i) {
      if i < n {
        RootOldEvent(s, s', id, e, i);
      } else {
        TailAppend(s.store.outbox, e, id);
        var k := Key(Primary(e.kind).value, n);
        assert k in s.runs ==> KeyOk(s, k);
        assert Unspent(s', n);
      }
    }
  }

  lemma RootKeys(s: State, s': State, id: string, e: Event)
    requires RootStep(s, s', id, e) && EventsOk(s) && KeysOk(s)
    ensures KeysOk(s')
  {
    forall k | k in s'.runs || k in s'.refused ensures KeyOk(s', k) {
      assert KeyOk(s, k);
      TailAppend(s.store.outbox, e, s.store.outbox[k.message].order);
    }
  }

  lemma RootOtherOrders(s: State, s': State, id: string, e: Event)
    requires RootStep(s, s', id, e) && OrdersOk(s) && OrderOk(s', id)
    ensures OrdersOk(s')
  {
    hide Typestate, RowsAccepted, LinesSound;
    forall x | x in s'.store.orders ensures OrderOk(s', x) {
      if x != id {
        assert OrderOk(s, x);
        TailAppend(s.store.outbox, e, x);
        var t := Tail(s.store.outbox, x);
        assert s'.store.outbox[t] == s.store.outbox[t];
        assert IsCompensated(s', t) == IsCompensated(s, t);
      }
    }
  }

  lemma RootEvolves(s: State, s': State, id: string, e: Event)
    requires RootStep(s, s', id, e) && OrdersOk(s)
    ensures Evolved(s, s')
  {
    hide OrdersOk;
    StatusesAreValid(s);
  }

  lemma NothingYet(s: State, id: string)
    requires Inv(s) && id !in s.store.orders
    ensures !Requested(s.store.outbox, id)
    ensures s.store.stock.Some? ==> HoldsNothing(s.store.stock.value.reservations, id)
    ensures !IsCompensated(s, |s.store.outbox|)
  {
    hide Typestate, OrdersOk;
    forall i: nat | i < |s.store.outbox| ensures s.store.outbox[i].order != id {
      assert EventOk(s, i);
    }
    var k := Key(OrdersCompensate, |s.store.outbox|);
    assert k in s.runs ==> KeyOk(s, k);
  }

  lemma CreateKeepsInv(s: State, a: Action)
    requires Inv(s) && a.Create?
    ensures Inv(Step(s, a)) && Evolved(s, Step(s, a))
  {
    hide Evolved, OrdersOk, EventsOk, KeysOk, RowsAccepted, LinesSound, StockOk;
    var s' := Step(s, a);
    if s' != s {
      var order, n := a.draft, |s.store.outbox|;
      var e := RootEvent(s.store, OrderCreated, order, a.correlation, order.totals.total);
      NothingYet(s, order.id);
      MixedMarks(order, ItemPending, ItemReserved);
      TailAppend(s.store.outbox, e, order.id);
      assert !IsCompensated(s', n);
      assert OrderOk(s', order.id);
      RootOtherOrders(s, s', order.id, e);
      RootEvents(s, s', order.id, e);
      RootKeys(s, s', order.id, e);
      RootEvolves(s, s', order.id, e);
    } else {
      StillEvolved(s, s);
    }
  }

  /** An accepted cancellation leaves the order in the cancelled column of the typestate table. */
  lemma RequestFits(order: Order, kind: EventType, before: bool, compensated: bool)
    requires Typestate(order, kind, before, compensated)
    requires CanTransitionOrderStatus(order.status, StatusCancellationPending)
    ensures Typestate(order.(status := StatusCancellationPending), kind, true, compensated)
  {
  }

  lemma IdsMatch(s: State)
    requires OrdersOk(s)
    ensures forall x :: x in s.store.orders ==> s.store.orders[x].id == x
  {
    hide Typestate, RowsAccepted, LinesSound;
    forall x | x in s.store.orders ensures s.store.orders[x].id == x {
      assert OrderOk(s, x);
    }
  }

  lemma IdsOf(s: State)
    requires Inv(s)
    ensures forall x :: x in s.store.orders ==> s.store.orders[x].id == x
  {
    hide EventsOk, KeysOk, StockLink;
    IdsMatch(s);
  }

  lemma RequestedOrder(s: State, s': State, id: string, e: Event)
    requires RootStep(s, s', id, e) && e.kind == CancelRequested && OrderOk(s, id)
    ensures OrderOk(s', id)
  {
    hide Typestate, RowsAccepted, LinesSound;
    var t := Tail(s.store.outbox, id);
    RequestFits(s.store.orders[id], s.store.outbox[t].kind, Requested(s.store.outbox, id), IsCompensated(s, t));
    TailAppend(s.store.outbox, e, id);
    assert s'.store.outbox[t] == s.store.outbox[t];
    assert IsCompensated(s', t) == IsCompensated(s, t);
  }

  lemma RequestKeepsInv(s: State, a: Action)
    requires Inv(s) && a.RequestCancel?
    ensures Inv(Step(s, a)) && Evolved(s, Step(s, a))
  {
    hide Evolved, EventsOk, KeysOk, RowsAccepted, LinesSound, StockLink, Typestate, OrdersOk;
    var s' := Step(s, a);
    if s' != s {
      var id := a.id;
      AnOrder(s, id);
      var e := RootEvent(s.store, CancelRequested, s.store.orders[id], a.correlation, 0);
      RequestedOrder(s, s', id, e);
      RootOtherOrders(s, s', id, e);
      RootEvents(s, s', id, e);
      RootKeys(s, s', id, e);
      RootEvolves(s, s', id, e);
      IdsMatch(s);
      StockUntouched(s, s', id);
    } else {
      StillEvolved(s, s);
    }
  }

  lemma AnOrder(s: State, id: string)
    requires OrdersOk(s) && id in s.store.orders
    ensures OrderOk(s, id)
  {
  }

  lemma StartKeepsInv(s: State, key: Key)
    requires Inv(s)
    ensures Inv(Step(s, Start(key))) && Evolved(s, Step(s, Start(key)))
  {
    hide Evolved, OrdersOk, StockLink, Typestate;
    var s' := Step(s, Start(key));
    StillEvolved(s, s');
    if s' != s {
      assert EventOk(s, key.message);
      forall i: nat | i < |s'.store.outbox| ensures EventOk(s', i) {
        assert EventOk(s, i);
        assert Unspent(s', i) == Unspent(s, i);
        assert !IsRoot(s.store.outbox[i].kind) ==> Unspent(s', s.store.outbox[i].causation) == Unspent(s, s.store.outbox[i].causation);
      }
      StartKeys(s, s', key);
      StartOrders(s, s', key);
    }
  }

  lemma StartKeys(s: State, s': State, key: Key)
    requires KeysOk(s) && s' == s.(runs := s.runs[key := Running(Begin)])
    requires key !in s.runs && key.message < |s.store.outbox| && EventOk(s, key.message)
    requires Binds(key.queue, s.store.outbox[key.message].kind)
    ensures KeysOk(s')
  {
    forall k | k in s'.runs || k in s'.refused ensures KeyOk(s', k) {
      if k != key {
        assert KeyOk(s, k);
      } else {
        assert key in s.refused ==> KeyOk(s, key);
      }
    }
  }

  lemma StartOrders(s: State, s': State, key: Key)
    requires OrdersOk(s) && s' == s.(runs := s.runs[key := Running(Begin)]) && key !in s.runs
    ensures OrdersOk(s')
  {
    hide OrderFits;
    forall x | x in s'.store.orders ensures OrderOk(s', x) {
      assert OrderOk(s, x);
      assert IsCompensated(s', Tail(s.store.outbox, x)) == IsCompensated(s, Tail(s.store.outbox, x));
    }
  }

  // ------------------------------------------------------------ runs

  lemma InvOrders(s: State)
    requires Inv(s)
    ensures OrdersOk(s)
  {
  }

  lemma StepKeepsInv(s: State, a: Action)
    requires Inv(s)
    ensures Inv(Step(s, a)) && Evolved(s, Step(s, a))
  {
    hide Inv, Evolved;
    assert OrdersOk(s) by { InvOrders(s); }
    match a
    case Create(_, _, _, _) => CreateKeepsInv(s, a);
    case RequestCancel(_, _) => RequestKeepsInv(s, a);
    case Start(key) => StartKeepsInv(s, key);
    case Abort(key) =>
      if IsRunning(s, key) {
        GiveUpStep(s, Step(s, a), key);
      } else {
        StillEvolved(s, s);
      }
    case Work(key, answer) =>
      if IsRunning(s, key) {
        WorkKeepsInv(s, key, answer);
      } else {
        StillEvolved(s, s);
      }
  }

  lemma WorkKeepsInv(s: State, key: Key, answer: Answer)
    requires Ready(s, key)
    ensures Inv(Step(s, Work(key, answer))) && Evolved(s, Step(s, Work(key, answer)))
  {
    hide Evolved, OrdersOk, EventsOk, StockLink, Step;
    assert KeyOk(s, key);
    match key.queue
    case InventoryReserve =>
      if s.runs[key].pc == Rejecting {
        RejectStep(s, key, answer);
      } else {
        ReserveStep(s, key, answer);
      }
    case PaymentsAuthorize => PayStep(s, key, answer);
    case ShipmentsCreate => ShipStep(s, key, answer);
    case OrdersFinalize => CompleteStep(s, key, answer);
    case OrdersCancel => CancelStepKeeps(s, key, answer);
    case OrdersCompensate => CompensateStep(s, key, answer);
    case NotificationsEmail => NotifyStep(s, key, answer);
  }

  lemma {:induction false} RunKeepsInv(s: State, acts: seq<Action>)
    requires Inv(s)
    ensures Inv(Run(s, acts))
  {
    hide Inv;
    if |acts| > 0 {
      RunKeepsInv(s, acts[..|acts| - 1]);
      StepKeepsInv(Run(s, acts[..|acts| - 1]), acts[|acts| - 1]);
    }
  }

  lemma InitInv(s: State)
    requires Init(s)
    ensures Inv(s)
  {
  }
}
