/** What every interleaving of the saga keeps. */
module SagaInvariant {
  import opened OrderModel
  import opened Stock
  import opened StockLaws
  import opened Topology
  import opened OrderStore
  import opened Fulfillment
  import opened Saga

  /** The order's state, read off its last fulfilment event, whether a cancellation was accepted and
      whether that last event was compensated. */
  ghost predicate Typestate(order: Order, last: EventType, cancelled: bool, compensated: bool) {
    var st := order.status;
    match last
    case OrderCreated =>
      && AllItems(order, ItemPending) && PaymentIs(order, PendingAuthorization) && order.shipment.None?
      && (if cancelled then st == StatusCancellationPending || st == StatusCancelled else st == StatusPendingFulfillment)
    case InventoryRejected =>
      && AllItems(order, ItemRejected) && PaymentIs(order, PendingAuthorization) && order.shipment.None?
      && (if cancelled then !compensated && (st == StatusCancellationPending || st == StatusCancelled)
          else st == if compensated then StatusFailed else StatusPendingFulfillment)
    case InventoryReserved =>
      && PaymentIs(order, PendingAuthorization) && order.shipment.None?
      && (if cancelled
          then (st == StatusCancellationPending && AllItems(order, ItemReserved)) || (st == StatusCancelled && AllItems(order, ItemReleased))
          else st == StatusInventoryReserved && AllItems(order, ItemReserved))
    case PaymentFailed =>
      && PaymentIs(order, AuthorizationFailed) && order.shipment.None?
      && (compensated ==> st == StatusCancelled)
      && ((st == StatusCancelled && AllItems(order, ItemReleased))
          || (st == (if cancelled then StatusCancellationPending else StatusInventoryReserved) && AllItems(order, ItemReserved)))
      && (st == StatusCancelled ==> cancelled || compensated)
    case PaymentAuthorized =>
      && order.shipment.None?
      && ((st == StatusCancelled && cancelled && Undone(order))
          || (st == (if cancelled then StatusCancellationPending else StatusPaymentAuthorized) && Secured(order)))
    case ShipmentFailed =>
      && !HasLiveShipment(order)
      && (st == StatusCancelled ==> cancelled)
      && (if st == StatusCancelled then Undone(order)
          else if compensated then st == StatusCancellationPending && Undone(order)
          else st == (if cancelled then StatusCancellationPending else StatusPaymentAuthorized) && Secured(order))
    case ShipmentCreated =>
      && HasLiveShipment(order) && Secured(order)
      && (if cancelled then st == StatusCancellationPending || st == StatusManualReview else st == StatusShipmentCreated)
    case OrderCompleted =>
      HasLiveShipment(order) && Secured(order) && !cancelled && st == StatusCompleted
    case _ => false
  }

  ghost predicate Secured(order: Order) {
    AllItems(order, ItemReserved) && PaymentIs(order, Authorized)
  }

  ghost predicate Undone(order: Order) {
    AllItems(order, ItemReleased) && PaymentIs(order, Voided)
  }

  ghost predicate IsCompensated(s: State, i: int) {
    i >= 0 && IsDone(s, Key(OrdersCompensate, i))
  }

  ghost predicate OrderFits(store: Store, id: string, compensated: bool)
    requires id in store.orders
  {
    var order := store.orders[id];
    var t := Tail(store.outbox, id);
    && order.id == id != "" && order.merchant != ""
    && order.items != [] && LinesSound(order.items)
    && t >= 0
    && Typestate(order, store.outbox[t].kind, Requested(store.outbox, id), compensated)
  }

  ghost predicate OrderOk(s: State, id: string)
    requires id in s.store.orders
  {
    OrderFits(s.store, id, IsCompensated(s, Tail(s.store.outbox, id)))
  }

  /** Nothing has been emitted on behalf of this event yet. */
  ghost predicate Unspent(s: State, i: nat)
    requires i < |s.store.outbox|
  {
    var q := Primary(s.store.outbox[i].kind);
    q.None? || !IsDone(s, Key(q.value, i))
  }

  ghost predicate CausedBy(outbox: seq<Event>, i: nat, c: nat)
    requires i < |outbox|
  {
    && c < i
    && outbox[c].order == outbox[i].order
    && outbox[c].merchant == outbox[i].merchant
    && outbox[c].correlation == outbox[i].correlation
    && Follows(outbox[c].kind, outbox[i].kind)
  }

  ghost predicate EventOk(s: State, i: nat)
    requires i < |s.store.outbox|
  {
    var outbox := s.store.outbox;
    var e := outbox[i];
    && e.id == i && HasIdentity(e)
    && !e.kind.OtherEvent?
    && e.order in s.store.orders && e.merchant == s.store.orders[e.order].merchant
    && (if IsRoot(e.kind) then e.causation == i
        else CausedBy(outbox, i, e.causation) && !Unspent(s, e.causation))
    && (OnChain(e.kind) && Unspent(s, i) ==> Tail(outbox, e.order) == i)
    && (OnChain(e.kind) && !Unspent(s, i) && Tail(outbox, e.order) == i ==> e.kind == ShipmentCreated && Requested(outbox, e.order))
    && (e.kind == CancelRequested && !Unspent(s, i) ==>
          s.store.orders[e.order].status == StatusCancelled || s.store.orders[e.order].status == StatusManualReview)
  }

  ghost predicate PcOk(queue: Queue, pc: Pc, order: Order) {
    match pc
    case Begin => true
    case Rejecting => queue == InventoryReserve
    case Paying(amount, _, _) => queue == PaymentsAuthorize && amount == order.totals.total
    case Booking(_, _) => queue == ShipmentsCreate
    case Completing => queue == OrdersFinalize
    case Reviewing => queue == OrdersCancel && HasLiveShipment(order)
    case Cancelling => queue == OrdersCancel && !HasLiveShipment(order)
  }

  ghost predicate KeyOk(s: State, key: Key) {
    && key.message < |s.store.outbox|
    && Binds(key.queue, s.store.outbox[key.message].kind)
    && s.store.outbox[key.message].order in s.store.orders
    && (key in s.runs && s.runs[key].Running? ==>
          PcOk(key.queue, s.runs[key].pc, s.store.orders[s.store.outbox[key.message].order]))
    && (key in s.refused ==> MayRefuse(s, key))
  }

  /** A handler refuses an event only if a cancellation was accepted or the payment cannot be recorded. */
  ghost predicate MayRefuse(s: State, key: Key)
    requires key.message < |s.store.outbox| && s.store.outbox[key.message].order in s.store.orders
  {
    var id := s.store.outbox[key.message].order;
    && key.queue != OrdersCancel
    && (Requested(s.store.outbox, id) || (key.queue == PaymentsAuthorize && Unpayable(s.store, id)))
  }

  /** Stock is held for every line, in the quantity ordered. */
  ghost predicate HoldsAll(rs: seq<Reservation>, id: string, items: seq<Item>) {
    forall i :: 0 <= i < |items| ==> HeldFor(rs, id, items[i].sku, items[i].quantity)
  }

  ghost predicate LinkOk(t: Tables, order: Order) {
    if AllItems(order, ItemReserved) then HoldsAll(t.reservations, order.id, order.items)
    else HoldsNothing(t.reservations, order.id)
  }

  ghost predicate StockLink(store: Store) {
    store.stock.Some? ==>
      var t := store.stock.value;
      && StockOk(t)
      && (forall id :: id in store.orders ==> LinkOk(t, store.orders[id]))
      && forall i :: 0 <= i < |t.reservations| ==> t.reservations[i].order in store.orders
  }

  ghost predicate OrdersOk(s: State) {
    forall id :: id in s.store.orders ==> OrderOk(s, id)
  }

  ghost predicate EventsOk(s: State) {
    forall i: nat :: i < |s.store.outbox| ==> EventOk(s, i)
  }

  ghost predicate KeysOk(s: State) {
    forall key :: key in s.runs || key in s.refused ==> KeyOk(s, key)
  }

  ghost predicate Inv(s: State) {
    OrdersOk(s) && EventsOk(s) && KeysOk(s) && StockLink(s.store)
  }

  // ------------------------------------------------------------ what a step may do to an order

  ghost predicate Evolves(a: Order, b: Order, requested: bool) {
    && SameTerms(a, b)
    && CanTransitionOrderStatus(a.status, b.status)
    && (requested ==> HasLiveShipment(a) == HasLiveShipment(b))
  }

  /** At most one event is appended: a root, or the one successor of an event that had none. */
  ghost predicate Grows(s: State, s': State) {
    var n := |s.store.outbox|;
    && s.store.outbox <= s'.store.outbox && |s'.store.outbox| <= n + 1
    && (forall k :: IsDone(s, k) ==> IsDone(s', k))
    && (|s'.store.outbox| == n + 1 && !IsRoot(s'.store.outbox[n].kind) ==>
          var c := s'.store.outbox[n].causation;
          CausedBy(s'.store.outbox, n, c) && Unspent(s, c) && !Unspent(s', c))
  }

  /** Orders and events are only ever added; an order only moves along the state machine. */
  ghost predicate Evolved(s: State, s': State) {
    && Grows(s, s')
    && forall id :: id in s.store.orders ==>
         id in s'.store.orders && Evolves(s.store.orders[id], s'.store.orders[id], Requested(s.store.outbox, id))
  }

  // ------------------------------------------------------------ one handler step, seen from its order

  /** `s'` differs from `s` only in what belongs to `key` and its order. */
  ghost predicate Local(s: State, s': State, key: Key) {
    && key.message < |s.store.outbox|
    && var id := s.store.outbox[key.message].order;
    && id in s.store.orders
    && s'.store.orders.Keys == s.store.orders.Keys && s'.store.stock.Some? == s.store.stock.Some?
    && (forall x :: x in s.store.orders && x != id ==> s'.store.orders[x] == s.store.orders[x])
    && (forall k :: k != key ==> (k in s'.runs <==> k in s.runs) && (k in s.runs ==> s'.runs[k] == s.runs[k]))
    && (forall k :: k != key ==> (k in s'.refused <==> k in s.refused))
  }

  /** The step appends `e`, the successor of the event it handles, and is done with that event. */
  ghost predicate Emits(s: State, s': State, key: Key, e: Event)
    requires Local(s, s', key)
  {
    var source := s.store.outbox[key.message];
    && s'.store.outbox == s.store.outbox + [e]
    && e == Event(|s.store.outbox|, e.kind, source.order, source.merchant, source.correlation, source.id, e.amount)
    && Primary(source.kind) == Some(key.queue) && Follows(source.kind, e.kind)
    && !IsDone(s, key) && IsDone(s', key)
    && (source.kind == CancelRequested ==>
          s'.store.orders[e.order].status == StatusCancelled || s'.store.orders[e.order].status == StatusManualReview)
  }

  ghost predicate Legal(s: State, s': State, key: Key)
    requires Local(s, s', key)
  {
    var id := s.store.outbox[key.message].order;
    Evolves(s.store.orders[id], s'.store.orders[id], Requested(s.store.outbox, id))
  }

  lemma StatusesAreValid(s: State)
    requires OrdersOk(s)
    ensures forall id :: id in s.store.orders ==> IsValidOrderStatus(s.store.orders[id].status)
  {
    hide RowsAccepted, LinesSound, AllItems;
    forall id | id in s.store.orders ensures IsValidOrderStatus(s.store.orders[id].status) {
      assert OrderOk(s, id);
    }
  }

  lemma StillEvolved(s: State, s': State)
    requires OrdersOk(s) && s'.store.orders == s.store.orders && s'.store.outbox == s.store.outbox
    requires forall k :: IsDone(s, k) ==> IsDone(s', k)
    ensures Evolved(s, s')
  {
    hide OrdersOk;
    StatusesAreValid(s);
  }

  /** The step's own key only settles as its queue allows. */
  ghost predicate SettlesQuietly(s: State, s': State, key: Key)
    requires Local(s, s', key)
  {
    var source := s.store.outbox[key.message];
    var status := s'.store.orders[source.order].status;
    && s'.store.outbox == s.store.outbox
    && !IsDone(s, key)
    && (IsDone(s', key) && key.queue == OrdersFinalize ==> Requested(s.store.outbox, source.order))
    && (IsDone(s', key) && key.queue == OrdersCancel ==> status == StatusCancelled || status == StatusManualReview)
    && (IsDone(s', key) && Primary(source.kind) == Some(key.queue) ==> key.queue == OrdersFinalize || key.queue == OrdersCancel)
  }

  /** A step that emits nothing keeps every event in order. */
  lemma QuietEvent(s: State, s': State, key: Key, i: nat)
    requires Local(s, s', key) && Legal(s, s', key) && SettlesQuietly(s, s', key)
    requires i < |s.store.outbox| && EventOk(s, i)
    ensures EventOk(s', i)
  {
    var e := s.store.outbox[i];
    assert Unspent(s', i) ==> Unspent(s, i);
    if !IsRoot(e.kind) {
      assert !Unspent(s', e.causation);
    }
    assert s'.store.orders[e.order].merchant == s.store.orders[e.order].merchant;
    var st, st' := s.store.orders[e.order].status, s'.store.orders[e.order].status;
    assert IsTerminal(st) ==> st' == st;
  }

  /** A step that emits keeps every earlier event in order. */
  lemma OldEvent(s: State, s': State, key: Key, e: Event, i: nat)
    requires Local(s, s', key) && Legal(s, s', key) && Emits(s, s', key, e)
    requires i < |s.store.outbox| && EventOk(s, i) && EventOk(s, key.message)
    ensures EventOk(s', i)
  {
    var x := s.store.outbox[i];
    TailAppend(s.store.outbox, e, x.order);
    if i != key.message {
      assert Unspent(s', i) == Unspent(s, i);
    }
    if !IsRoot(x.kind) {
      assert !Unspent(s', x.causation);
    }
    var st, st' := s.store.orders[x.order].status, s'.store.orders[x.order].status;
    assert IsTerminal(st) ==> st' == st;
  }

  lemma NewEvent(s: State, s': State, key: Key, e: Event)
    requires Local(s, s', key) && Legal(s, s', key) && Emits(s, s', key, e)
    requires EventOk(s, key.message)
    requires Primary(e.kind).Some? ==> Key(Primary(e.kind).value, |s.store.outbox|) !in s.runs
    ensures EventOk(s', |s.store.outbox|)
  {
    var n := |s.store.outbox|;
    TailAppend(s.store.outbox, e, e.order);
    assert s'.store.outbox[n] == e;
    assert Unspent(s', n);
    assert CausedBy(s'.store.outbox, n, e.causation);
  }

  lemma OtherKey(s: State, s': State, key: Key, k: Key)
    requires Local(s, s', key) && Legal(s, s', key)
    requires s.store.outbox <= s'.store.outbox
    requires k != key && KeyOk(s, k) && EventOk(s, k.message)
    ensures KeyOk(s', k)
  {
    var source := s.store.outbox[k.message];
    assert s'.store.outbox[k.message] == source;
    if Requested(s.store.outbox, source.order) {
      var i :| 0 <= i < |s.store.outbox| && s.store.outbox[i].order == source.order && s.store.outbox[i].kind == CancelRequested;
      assert s'.store.outbox[i] == s.store.outbox[i];
    }
    if source.kind == CancelRequested {
      assert Requested(s.store.outbox, source.order);
    }
  }

  lemma OtherOrders(s: State, s': State, key: Key, events: seq<Event>)
    requires OrdersOk(s) && Local(s, s', key)
    requires s'.store.outbox == s.store.outbox + events && |events| <= 1
    requires events != [] ==> events[0].order == s.store.outbox[key.message].order
    requires EventsOk(s)
    requires OrderOk(s', s.store.outbox[key.message].order)
    ensures OrdersOk(s')
  {
    forall x | x in s'.store.orders ensures OrderOk(s', x) {
      if x != s.store.outbox[key.message].order {
        assert OrderOk(s, x);
        OtherOrder(s, s', key, events, x);
      }
    }
  }

  lemma OtherOrder(s: State, s': State, key: Key, events: seq<Event>, x: string)
    requires Local(s, s', key)
    requires s'.store.outbox == s.store.outbox + events && |events| <= 1
    requires events != [] ==> events[0].order == s.store.outbox[key.message].order
    requires x in s.store.orders && x != s.store.outbox[key.message].order && OrderOk(s, x)
    ensures OrderOk(s', x)
  {
    if events == [] {
      assert s'.store.outbox == s.store.outbox;
    } else {
      assert events == [events[0]];
      TailAppend(s.store.outbox, events[0], x);
    }
    var t := Tail(s.store.outbox, x);
    assert s.store.outbox[t].order == x && s'.store.outbox[t] == s.store.outbox[t];
    assert IsCompensated(s', t) == IsCompensated(s, t);
  }

  lemma EventsStayOk(s: State, s': State, key: Key, e: Event)
    requires EventsOk(s) && KeysOk(s) && Local(s, s', key) && Legal(s, s', key) && Emits(s, s', key, e)
    ensures EventsOk(s')
  {
    var n := |s.store.outbox|;
    forall i: nat | i < |s'.store.outbox| ensures EventOk(s', i) {
      if i < n {
        OldEvent(s, s', key, e, i);
      } else {
        if Primary(e.kind).Some? {
          var k := Key(Primary(e.kind).value, n);
          assert k in s.runs ==> KeyOk(s, k);
        }
        NewEvent(s, s', key, e);
      }
    }
  }

  lemma KeysStayOk(s: State, s': State, key: Key)
    requires EventsOk(s) && KeysOk(s) && Local(s, s', key) && Legal(s, s', key)
    requires s.store.outbox <= s'.store.outbox && KeyOk(s', key)
    ensures KeysOk(s')
  {
    forall k | k in s'.runs || k in s'.refused ensures KeyOk(s', k) {
      if k != key {
        assert KeyOk(s, k);
        OtherKey(s, s', key, k);
      }
    }
  }

  lemma LegalEvolves(s: State, s': State, key: Key)
    requires OrdersOk(s) && Local(s, s', key) && Legal(s, s', key) && EventOk(s, key.message)
    requires SettlesQuietly(s, s', key) || exists e :: Emits(s, s', key, e)
    ensures Evolved(s, s')
  {
    hide OrdersOk, EventOk;
    StatusesAreValid(s);
    GrowsByOne(s, s', key);
  }

  lemma AnEvent(s: State, i: nat)
    requires EventsOk(s) && i < |s.store.outbox|
    ensures EventOk(s, i)
  {
  }

  lemma GrowsByOne(s: State, s': State, key: Key)
    requires Local(s, s', key) && EventOk(s, key.message)
    requires SettlesQuietly(s, s', key) || exists e :: Emits(s, s', key, e)
    ensures Grows(s, s')
  {
    if !SettlesQuietly(s, s', key) {
      var e :| Emits(s, s', key, e);
      var n := |s.store.outbox|;
      assert s'.store.outbox[n] == e && s'.store.outbox[key.message] == s.store.outbox[key.message];
      assert !IsRoot(e.kind) && CausedBy(s'.store.outbox, n, e.causation);
    }
  }

  lemma QuietEvents(s: State, s': State, key: Key)
    requires EventsOk(s) && Local(s, s', key) && Legal(s, s', key) && SettlesQuietly(s, s', key)
    ensures EventsOk(s')
  {
    forall i: nat | i < |s'.store.outbox| ensures EventOk(s', i) {
      assert EventOk(s, i);
      QuietEvent(s, s', key, i);
    }
  }

  /** A handler step that emits nothing keeps the invariant if it keeps its own order's typestate. */
  lemma QuietStepKeepsInv(s: State, s': State, key: Key)
    requires Inv(s) && Local(s, s', key) && Legal(s, s', key) && SettlesQuietly(s, s', key)
    requires KeyOk(s', key) && OrderOk(s', s.store.outbox[key.message].order) && StockLink(s'.store)
    ensures Inv(s') && Evolved(s, s')
  {
    hide OrdersOk, EventsOk, KeysOk, StockLink, OrderOk, KeyOk, Evolved, Legal, EventOk;
    AnEvent(s, key.message);
    LegalEvolves(s, s', key);
    OtherOrders(s, s', key, []);
    QuietEvents(s, s', key);
    KeysStayOk(s, s', key);
  }

  /** So does one that emits. */
  lemma LoudStepKeepsInv(s: State, s': State, key: Key, e: Event)
    requires Inv(s) && Local(s, s', key) && Legal(s, s', key) && Emits(s, s', key, e)
    requires KeyOk(s', key) && OrderOk(s', s.store.outbox[key.message].order) && StockLink(s'.store)
    ensures Inv(s') && Evolved(s, s')
  {
    hide OrdersOk, EventsOk, KeysOk, StockLink, OrderOk, KeyOk, Evolved, Legal, EventOk;
    AnEvent(s, key.message);
    LegalEvolves(s, s', key);
    OtherOrders(s, s', key, [e]);
    EventsStayOk(s, s', key, e);
    KeysStayOk(s, s', key);
  }
}
