/** What holds of every run of the saga, over every interleaving of API calls, handler steps,
    redeliveries and failures. */
module SagaTheorems {
  import opened OrderModel
  import opened Stock
  import opened StockLaws
  import opened Topology
  import opened OrderStore
  import opened Fulfillment
  import opened Saga
  import opened SagaInvariant
  import opened SagaSafety

  lemma ReachableInv(s0: State, acts: seq<Action>)
    requires Init(s0)
    ensures Inv(Run(s0, acts))
  {
    hide Inv;
    InitInv(s0);
    RunKeepsInv(s0, acts);
  }

  // ------------------------------------------------------------ resources follow the status

  ghost predicate NothingReserved(order: Order) {
    forall i :: 0 <= i < |order.items| ==> order.items[i].reservation != ItemReserved
  }

  lemma TypestateSays(order: Order, kind: EventType, cancelled: bool, compensated: bool)
    requires order.items != [] && Typestate(order, kind, cancelled, compensated)
    ensures AllItems(order, ItemPending) || AllItems(order, ItemReserved) || AllItems(order, ItemRejected) || AllItems(order, ItemReleased)
    ensures order.status == StatusCancelled || order.status == StatusFailed ==>
      NothingReserved(order) && !PaymentIs(order, Authorized) && !HasLiveShipment(order) && !AllItems(order, ItemReserved)
    ensures order.status == StatusShipmentCreated || order.status == StatusCompleted || order.status == StatusManualReview ==>
      Secured(order) && HasLiveShipment(order)
    ensures cancelled ==>
      && (order.status == StatusCancellationPending || order.status == StatusCancelled || order.status == StatusManualReview)
    ensures IsValidOrderStatus(order.status)
  {
    assert !AllItems(order, ItemReserved) || order.items[0].reservation == ItemReserved;
  }

  /** In every reachable state all lines of an order share one reservation status; a cancelled or
      failed order holds no stock, no authorization and no live shipment; an order that was shipped,
      completed or sent to manual review holds all three. */
  lemma ResourcesFollowStatus(s0: State, acts: seq<Action>, id: string)
    requires Init(s0) && id in Run(s0, acts).store.orders
    ensures var s := Run(s0, acts); var order := s.store.orders[id];
      && (AllItems(order, ItemPending) || AllItems(order, ItemReserved) || AllItems(order, ItemRejected) || AllItems(order, ItemReleased))
      && (order.status == StatusCancelled || order.status == StatusFailed ==>
            && NothingReserved(order) && !PaymentIs(order, Authorized) && !HasLiveShipment(order)
            && (s.store.stock.Some? ==> HoldsNothing(s.store.stock.value.reservations, id)))
      && (order.status == StatusShipmentCreated || order.status == StatusCompleted || order.status == StatusManualReview ==>
            && AllItems(order, ItemReserved) && PaymentIs(order, Authorized) && HasLiveShipment(order)
            && (s.store.stock.Some? ==> HoldsAll(s.store.stock.value.reservations, id, order.items)))
  {
    hide Run, Init, Typestate, EventsOk, KeysOk, StockOk, RowsAccepted, LinesSound;
    ReachableInv(s0, acts);
    var s := Run(s0, acts);
    assert OrderOk(s, id);
    var t := Tail(s.store.outbox, id);
    TypestateSays(s.store.orders[id], s.store.outbox[t].kind, Requested(s.store.outbox, id), IsCompensated(s, t));
    assert s.store.stock.Some? ==> LinkOk(s.store.stock.value, s.store.orders[id]);
  }

  // ------------------------------------------------------------ from one state to any later one

  /** `s'` comes after `s`: orders stay, their terms stay, terminal statuses stay, and once a
      cancellation was accepted the shipment stays. */
  ghost predicate After(s: State, s': State) {
    && s.store.outbox <= s'.store.outbox
    && (forall k :: IsDone(s, k) ==> IsDone(s', k))
    && forall id :: id in s.store.orders ==> id in s'.store.orders && OrderAfter(s, s', id)
  }

  ghost predicate OrderAfter(s: State, s': State, id: string)
    requires id in s.store.orders && id in s'.store.orders
  {
    var a, b := s.store.orders[id], s'.store.orders[id];
    && SameTerms(a, b)
    && (IsTerminal(a.status) ==> b.status == a.status)
    && (Requested(s.store.outbox, id) ==> Requested(s'.store.outbox, id) && HasLiveShipment(a) == HasLiveShipment(b))
  }

  lemma RequestedStays(outbox: seq<Event>, outbox': seq<Event>, id: string)
    requires outbox <= outbox' && Requested(outbox, id)
    ensures Requested(outbox', id)
  {
    var i :| 0 <= i < |outbox| && outbox[i].order == id && outbox[i].kind == CancelRequested;
    assert outbox'[i] == outbox[i];
  }

  lemma AfterStep(s: State, m: State, s': State)
    requires After(s, m) && Evolved(m, s')
    ensures After(s, s')
  {
    forall id | id in s.store.orders ensures id in s'.store.orders && OrderAfter(s, s', id) {
      assert OrderAfter(s, m, id);
      assert Evolves(m.store.orders[id], s'.store.orders[id], Requested(m.store.outbox, id));
      if Requested(s.store.outbox, id) {
        RequestedStays(s.store.outbox, s'.store.outbox, id);
      }
      TermsCompose(s.store.orders[id], m.store.orders[id], s'.store.orders[id]);
    }
  }

  lemma TermsCompose(a: Order, b: Order, c: Order)
    requires SameTerms(a, b) && SameTerms(b, c)
    ensures SameTerms(a, c)
  {
    forall i | 0 <= i < |a.items| ensures Snapshot(a.items[i]) == Snapshot(c.items[i]) {
      assert Snapshot(a.items[i]) == Snapshot(b.items[i]) && Snapshot(b.items[i]) == Snapshot(c.items[i]);
    }
  }

  lemma {:induction false} RunGoesForward(s: State, acts: seq<Action>)
    requires Inv(s)
    ensures Inv(Run(s, acts)) && After(s, Run(s, acts))
  {
    hide Inv, Evolved, Step;
    if |acts| > 0 {
      var m := Run(s, acts[..|acts| - 1]);
      RunGoesForward(s, acts[..|acts| - 1]);
      StepKeepsInv(m, acts[|acts| - 1]);
      AfterStep(s, m, Run(s, acts));
    }
  }

  /** A terminal status is never left, and an order's lines, prices and totals never change. */
  lemma TerminalAndTermsAreFinal(s0: State, acts: seq<Action>, more: seq<Action>, id: string)
    requires Init(s0) && id in Run(s0, acts).store.orders
    ensures var s, s' := Run(s0, acts), Run(Run(s0, acts), more);
      && id in s'.store.orders
      && SameTerms(s.store.orders[id], s'.store.orders[id])
      && (IsTerminal(s.store.orders[id].status) ==> s'.store.orders[id].status == s.store.orders[id].status)
  {
    hide Inv, Run, Init;
    ReachableInv(s0, acts);
    RunGoesForward(Run(s0, acts), more);
    assert OrderAfter(Run(s0, acts), Run(Run(s0, acts), more), id);
  }

  /** Cancellation and fulfilment exclude each other: from the moment a cancellation was accepted the
      order only ever is cancellation_pending, cancelled or manual_review; whether it has a live
      shipment no longer changes; and that alone decides which end it reaches. */
  lemma CancellationExcludesFulfilment(s0: State, acts: seq<Action>, more: seq<Action>, id: string)
    requires Init(s0) && id in Run(s0, acts).store.orders && Requested(Run(s0, acts).store.outbox, id)
    ensures var s, s' := Run(s0, acts), Run(Run(s0, acts), more);
      && id in s'.store.orders
      && var order := s'.store.orders[id];
      && HasLiveShipment(order) == HasLiveShipment(s.store.orders[id])
      && (order.status == StatusCancellationPending
          || (order.status == StatusManualReview && HasLiveShipment(order))
          || (order.status == StatusCancelled && !HasLiveShipment(order)))
  {
    hide Run, Init, EventsOk, KeysOk, StockLink, RowsAccepted, LinesSound, Typestate;
    ReachableInv(s0, acts);
    RunGoesForward(Run(s0, acts), more);
    var s, s' := Run(s0, acts), Run(Run(s0, acts), more);
    assert OrderAfter(s, s', id);
    assert OrderOk(s', id);
    var t := Tail(s'.store.outbox, id);
    TypestateSays(s'.store.orders[id], s'.store.outbox[t].kind, Requested(s'.store.outbox, id), IsCompensated(s', t));
  }

  // ------------------------------------------------------------ quiescence

  /** Every event was handled by every queue it is bound to, or refused by that queue's handler. */
  ghost predicate Settled(s: State) {
    forall i: nat, q: Queue :: i < |s.store.outbox| && Binds(q, s.store.outbox[i].kind) ==>
      IsDone(s, Key(q, i)) || Key(q, i) in s.refused
  }

  lemma AKey(s: State, key: Key)
    requires KeysOk(s) && (key in s.runs || key in s.refused)
    ensures KeyOk(s, key)
  {
  }

  lemma SettledAt(s: State, q: Queue, i: nat)
    requires Settled(s) && i < |s.store.outbox| && Binds(q, s.store.outbox[i].kind)
    ensures IsDone(s, Key(q, i)) || Key(q, i) in s.refused
  {
  }

  /** A settled cancellation request has reached its end. */
  lemma SettledRequest(s: State, id: string)
    requires Inv(s) && Settled(s) && id in s.store.orders && Requested(s.store.outbox, id)
    ensures IsTerminal(s.store.orders[id].status)
  {
    hide OrdersOk, EventsOk, KeysOk, StockLink, Settled;
    var i: nat :| i < |s.store.outbox| && s.store.outbox[i].order == id && s.store.outbox[i].kind == CancelRequested;
    AnEvent(s, i);
    SettledAt(s, OrdersCancel, i);
    if Key(OrdersCancel, i) in s.refused {
      AKey(s, Key(OrdersCancel, i));
    }
  }

  /** Without a request only a payment that cannot be recorded was refused, so the last fulfilment event
      was handled. */
  lemma SettledTail(s: State, id: string, t: nat, q: Queue)
    requires Inv(s) && Settled(s) && id in s.store.orders && !Requested(s.store.outbox, id)
    requires t < |s.store.outbox| && s.store.outbox[t].order == id && Binds(q, s.store.outbox[t].kind)
    ensures IsDone(s, Key(q, t)) || (q == PaymentsAuthorize && Unpayable(s.store, id))
  {
    hide OrdersOk, EventsOk, KeysOk, StockLink, Settled;
    SettledAt(s, q, t);
    if Key(q, t) in s.refused {
      AKey(s, Key(q, t));
    }
  }

  /** The shipment was refused and nobody asked to cancel. */
  ghost predicate ShipmentRefused(s: State, id: string) {
    var t := Tail(s.store.outbox, id);
    t >= 0 && s.store.outbox[t].kind == ShipmentFailed && !Requested(s.store.outbox, id)
  }

  /** The stock is reserved, the payment cannot be recorded because the total is negative, and nobody asked
      to cancel. */
  ghost predicate PaymentBlocked(s: State, id: string)
    requires id in s.store.orders
  {
    var t := Tail(s.store.outbox, id);
    t >= 0 && s.store.outbox[t].kind == InventoryReserved && !Requested(s.store.outbox, id) && Unpayable(s.store, id)
  }

  /** A settled order has reached its end, unless nobody asked to cancel and either its shipment was refused
      or its payment is blocked. */
  ghost predicate EndsExactlyWhen(s: State, id: string)
    requires id in s.store.orders
  {
    && (IsTerminal(s.store.orders[id].status) <==> !ShipmentRefused(s, id) && !PaymentBlocked(s, id))
    && (ShipmentRefused(s, id) ==>
          s.store.orders[id].status == StatusCancellationPending && IsCompensated(s, Tail(s.store.outbox, id)))
    && (PaymentBlocked(s, id) ==>
          s.store.orders[id].status == StatusInventoryReserved && AllItems(s.store.orders[id], ItemReserved))
  }

  lemma SettledOrder(s: State, id: string)
    requires Inv(s) && Settled(s) && id in s.store.orders
    ensures EndsExactlyWhen(s, id)
  {
    hide OrdersOk, EventsOk, KeysOk, StockLink, RowsAccepted, LinesSound, Settled;
    AnOrder(s, id);
    if Requested(s.store.outbox, id) {
      SettledRequest(s, id);
    } else {
      var t: nat := Tail(s.store.outbox, id);
      AnEvent(s, t);
      var kind := s.store.outbox[t].kind;
      SettledTail(s, id, t,
        if Primary(kind).Some? then Primary(kind).value else if kind == OrderCompleted then NotificationsEmail else OrdersCompensate);
    }
  }

  /** Quiescence: a run that leaves nothing to deliver leaves an order completed, cancelled, failed or in
      manual review, except if nobody asked to cancel it and either its shipment was refused, when it is
      compensated and stays cancellation_pending, or the relational store cannot record the payment of its
      negative total, when it stays inventory_reserved and keeps its stock. In both cases it does stay. */
  lemma Quiescence(s0: State, acts: seq<Action>, id: string)
    requires Init(s0) && Settled(Run(s0, acts)) && id in Run(s0, acts).store.orders
    ensures EndsExactlyWhen(Run(s0, acts), id)
  {
    hide Run, Init, Inv, Settled;
    ReachableInv(s0, acts);
    SettledOrder(Run(s0, acts), id);
  }

  /** A cancellation that was accepted is never refused by its handler. */
  lemma CancellationIsNeverRefused(s0: State, acts: seq<Action>, i: nat)
    requires Init(s0)
    ensures Key(OrdersCancel, i) !in Run(s0, acts).refused
  {
    hide Run, Init, OrdersOk, EventsOk, StockLink;
    ReachableInv(s0, acts);
    var key := Key(OrdersCancel, i);
    assert key in Run(s0, acts).refused ==> KeyOk(Run(s0, acts), key);
  }
}
