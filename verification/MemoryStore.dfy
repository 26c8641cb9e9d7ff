/** The in-memory store (internal/commerce/store.go): maps and slices updated under a mutex, so each
    method is one step. Every method is proved against the store value of OrderStore and the outbox
    value of Outbox. */
module MemoryStore {
  import opened OrderModel
  import opened OrderStore
  import Outbox

  /** The value of an index held as strings. */
  ghost function Index(m: map<string, string>): (r: map<IndexKey, string>) {
    map k | k in m :: Scoped(k) := m[k]
  }

  lemma IndexPut(m: map<string, string>, key: string, id: string)
    ensures Index(m[key := id]) == Index(m)[Scoped(key) := id]
    ensures Scoped(key) in Index(m) <==> key in m
    ensures key in m ==> Index(m)[Scoped(key)] == m[key]
  {
  }

  class Memory {
    var orders: map<string, Order>
    var byExternal: map<string, string>
    var byIdempotency: map<string, string>
    var outbox: seq<Event>
    var audits: seq<AuditLog>
    var published: map<nat, int>
    var claimed: map<nat, int>

    /** The store as a value. */
    ghost function View(): (s: Store)
      reads this
    {
      Store(orders, Index(byExternal), Index(byIdempotency), outbox, audits, None)
    }

    /** The outbox as the relay sees it. */
    function Relayed(): (box: Outbox.Box)
      reads this
    {
      Outbox.Box(outbox, published, claimed)
    }

    constructor ()
      ensures Valid() && View() == NewStore(None) && Relayed() == Outbox.Box([], map[], map[])
    {
      orders, byExternal, byIdempotency := map[], map[], map[];
      outbox, audits := [], [];
      published, claimed := map[], map[];
    }

    /** Every idempotency entry names a stored order. */
    ghost predicate Valid()
      reads this
    {
      forall k :: k in byIdempotency ==> byIdempotency[k] in orders
    }

    method InsertOrder(merchant: string, key: string, order: Order, event: Event, audit: AuditLog)
      returns (r: Result<(Order, bool)>)
      requires Valid()
      modifies this`orders, this`byExternal, this`byIdempotency, this`outbox, this`audits
      ensures Valid()
      ensures (View(), r) == OrderStore.InsertOrder(old(View()), merchant, key, order, event, audit)
    {
      hide RowsAccepted, Index;
      var idempotencyRef := ScopedKey(merchant, key);
      IndexPut(byIdempotency, idempotencyRef, order.id);
      if idempotencyRef in byIdempotency {
        return Ok((orders[byIdempotency[idempotencyRef]], true));
      }
      var externalRef := ScopedKey(merchant, order.external);
      IndexPut(byExternal, externalRef, order.id);
      if externalRef in byExternal {
        return Err(DuplicateOrder);
      }
      orders := orders[order.id := order];
      byExternal := byExternal[externalRef := order.id];
      byIdempotency := byIdempotency[idempotencyRef := order.id];
      outbox := outbox + [event];
      audits := audits + [audit];
      r := Ok((order, false));
    }

    method UpdateOrderStatus(id: string, status: OrderStatus, event: Event, audit: AuditLog) returns (r: Result<Order>)
      requires Valid()
      modifies this`orders, this`outbox, this`audits
      ensures Valid()
      ensures (View(), r) == OrderStore.UpdateOrderStatus(old(View()), id, status, event, audit)
    {
      if id !in orders {
        return Err(NotFound);
      }
      var order := orders[id];
      if !CanTransitionOrderStatus(order.status, status) {
        return Err(InvalidStateTransition);
      }
      order := order.(status := status);
      orders := orders[id := order];
      outbox := outbox + [event];
      audits := audits + [audit];
      r := Ok(order);
    }

    /** The loop `for idx := range order.Items` that stamps one reservation status on every line. */
    method StampItems(order: Order, mark: ReservationStatus) returns (items: seq<Item>)
      ensures items == MarkItems(order.items, mark)
    {
      items := order.items;
      var idx := 0;
      while idx < |items|
        invariant 0 <= idx <= |items| == |order.items|
        invariant forall i :: 0 <= i < idx ==> items[i] == order.items[i].(reservation := mark)
        invariant forall i :: idx <= i < |items| ==> items[i] == order.items[i]
      {
        items := items[idx := items[idx].(reservation := mark)];
        idx := idx + 1;
      }
    }

    /** The loop that releases the lines that are reserved and leaves the others. */
    method ReleaseLines(order: Order) returns (items: seq<Item>)
      ensures items == ReleaseItems(order.items)
    {
      items := order.items;
      var idx := 0;
      while idx < |items|
        invariant 0 <= idx <= |items| == |order.items|
        invariant forall i :: 0 <= i < idx ==> items[i] == ReleaseItem(order.items[i])
        invariant forall i :: idx <= i < |items| ==> items[i] == order.items[i]
      {
        if items[idx].reservation == ItemReserved {
          items := items[idx := items[idx].(reservation := ItemReleased)];
        }
        idx := idx + 1;
      }
    }

    method RecordInventoryReserved(source: Event, next: Event, audit: AuditLog) returns (r: Result<()>)
      requires Valid()
      modifies this`orders, this`outbox, this`audits
      ensures Valid()
      ensures (View(), r) == OrderStore.RecordInventoryReserved(old(View()), source, next, audit)
    {
      if source.order !in orders {
        return Err(NotFound);
      }
      var order := orders[source.order];
      if !CanTransitionOrderStatus(order.status, StatusInventoryReserved) {
        return Err(InvalidStateTransition);
      }
      var items := StampItems(order, ItemReserved);
      orders := orders[source.order := order.(items := items, status := StatusInventoryReserved)];
      outbox := outbox + [next];
      audits := audits + [audit];
      r := Ok(());
    }

    method RecordInventoryRejected(source: Event, next: Event, audit: AuditLog) returns (r: Result<()>)
      requires Valid()
      modifies this`orders, this`outbox, this`audits
      ensures Valid()
      ensures (View(), r) == OrderStore.RecordInventoryRejected(old(View()), source, next, audit)
    {
      if source.order !in orders {
        return Err(NotFound);
      }
      var order := orders[source.order];
      var items := StampItems(order, ItemRejected);
      orders := orders[source.order := order.(items := items)];
      outbox := outbox + [next];
      audits := audits + [audit];
      r := Ok(());
    }

    method RecordPaymentAuthorized(source: Event, next: Event, payment: Payment, audit: AuditLog) returns (r: Result<()>)
      requires Valid()
      modifies this`orders, this`outbox, this`audits
      ensures Valid()
      ensures (View(), r) == OrderStore.RecordPaymentAuthorized(old(View()), source, next, payment, audit)
    {
      if source.order !in orders {
        return Err(NotFound);
      }
      var order := orders[source.order];
      var paid := payment;
      if paid.provider == "" && order.payment.Some? {
        paid := paid.(provider := order.payment.value.provider);
      }
      if !CanTransitionOrderStatus(order.status, StatusPaymentAuthorized) {
        return Err(InvalidStateTransition);
      }
      orders := orders[source.order := order.(payment := Some(paid), status := StatusPaymentAuthorized)];
      outbox := outbox + [next.(amount := order.totals.total)];
      audits := audits + [audit];
      r := Ok(());
    }

    method RecordPaymentFailed(source: Event, next: Event, audit: AuditLog) returns (r: Result<()>)
      requires Valid()
      modifies this`orders, this`outbox, this`audits
      ensures Valid()
      ensures (View(), r) == OrderStore.RecordPaymentFailed(old(View()), source, next, audit)
    {
      if source.order !in orders {
        return Err(NotFound);
      }
      var order := orders[source.order];
      var provider := "fake-payment";
      if order.payment.Some? && order.payment.value.provider != "" {
        provider := order.payment.value.provider;
      }
      orders := orders[source.order := order.(payment := Some(Payment(provider, AuthorizationFailed, "")))];
      outbox := outbox + [next];
      audits := audits + [audit];
      r := Ok(());
    }

    method RecordShipmentCreated(source: Event, next: Event, shipment: Shipment, audit: AuditLog) returns (r: Result<()>)
      requires Valid()
      modifies this`orders, this`outbox, this`audits
      ensures Valid()
      ensures (View(), r) == OrderStore.RecordShipmentCreated(old(View()), source, next, shipment, audit)
    {
      if source.order !in orders {
        return Err(NotFound);
      }
      var order := orders[source.order];
      if !CanTransitionOrderStatus(order.status, StatusShipmentCreated) {
        return Err(InvalidStateTransition);
      }
      orders := orders[source.order := order.(shipment := Some(shipment), status := StatusShipmentCreated)];
      outbox := outbox + [next];
      audits := audits + [audit];
      r := Ok(());
    }

    method RecordShipmentFailed(source: Event, next: Event, audit: AuditLog) returns (r: Result<()>)
      requires Valid()
      modifies this`orders, this`outbox, this`audits
      ensures Valid()
      ensures (View(), r) == OrderStore.RecordShipmentFailed(old(View()), source, next, audit)
    {
      if source.order !in orders {
        return Err(NotFound);
      }
      orders := orders[source.order := orders[source.order].(shipment := Some(Shipment("", BookingFailed)))];
      outbox := outbox + [next];
      audits := audits + [audit];
      r := Ok(());
    }

    method RecordOrderCancelled(source: Event, next: Event, audit: AuditLog) returns (r: Result<()>)
      requires Valid()
      modifies this`orders, this`outbox, this`audits
      ensures Valid()
      ensures (View(), r) == OrderStore.RecordOrderCancelled(old(View()), source, next, audit)
    {
      if source.order !in orders {
        return Err(NotFound);
      }
      var order := orders[source.order];
      if !CanTransitionOrderStatus(order.status, StatusCancelled) {
        return Err(InvalidStateTransition);
      }
      var items := ReleaseLines(order);
      order := order.(status := StatusCancelled, items := items);
      if order.payment.Some? && order.payment.value.status == Authorized {
        order := order.(payment := Some(order.payment.value.(status := Voided)));
      }
      orders := orders[source.order := order];
      outbox := outbox + [next];
      audits := audits + [audit];
      r := Ok(());
    }

    method RecordNotificationQueued(source: Event, audit: AuditLog) returns (r: Result<()>)
      requires Valid()
      modifies this`audits
      ensures Valid()
      ensures (View(), r) == OrderStore.RecordNotificationQueued(old(View()), source, audit)
    {
      if source.order !in orders {
        return Err(NotFound);
      }
      audits := audits + [audit];
      r := Ok(());
    }

    method RecordCompensation(source: Event, status: OrderStatus, audit: AuditLog) returns (r: Result<()>)
      requires Valid()
      modifies this`orders, this`audits
      ensures Valid()
      ensures (View(), r) == OrderStore.RecordCompensation(old(View()), source, status, audit)
    {
      if source.order !in orders {
        return Err(NotFound);
      }
      var order := orders[source.order];
      if !CanTransitionOrderStatus(order.status, status) {
        return Err(InvalidStateTransition);
      }
      order := order.(status := status);
      if source.kind == PaymentFailed || source.kind == ShipmentFailed {
        var items := ReleaseLines(order);
        order := order.(items := items);
      }
      if source.kind == ShipmentFailed && order.payment.Some? && order.payment.value.status == Authorized {
        order := order.(payment := Some(order.payment.value.(status := Voided)));
      }
      orders := orders[source.order := order];
      audits := audits + [audit];
      assert outbox + [] == outbox;
      r := Ok(());
    }

    // ---------------------------------------------------------- the relay's side

    /** Claims the first `limit` claimable events in outbox order and leases them for 30 seconds. */
    method PendingOutboxEvents(limit: int, now: int) returns (events: seq<Event>)
      requires Valid()
      modifies this`claimed
      ensures Valid()
      ensures (Relayed(), events) == Outbox.Claim(old(Relayed()), limit, now)
      ensures limit > 0 ==> |events| <= limit
      ensures exists at :: Outbox.FirstDue(old(Relayed()), limit, now, events, at)
      ensures Outbox.Leased(old(claimed), claimed, events, now)
    {
      ghost var at := Outbox.BatchIsFirst(Relayed(), limit, now);
      Outbox.BatchIsLeased(Relayed(), limit, now);
      hide Outbox.Leased, Outbox.FirstDue, Outbox.Take, Outbox.Lease, Outbox.ClaimableAmong, Outbox.Due;
      var most := if limit <= 0 then |outbox| else limit;
      var claimUntil := now + 30;
      events := [];
      ghost var box := Relayed();
      Outbox.Start(box, now, claimUntil);
      var i := 0;
      while i < |outbox|
        invariant 0 <= i <= |outbox|
        invariant events == Outbox.ClaimableAmong(box, i, now)
        invariant claimed == Outbox.Lease(box.claimed, events, claimUntil)
        invariant |events| < most || (|outbox| == 0 && |events| == 0)
      {
        var event := outbox[i];
        Outbox.Scan(box, i, now);
        Outbox.SkipsExactly(box, i, now, claimed);
        i := i + 1;
        if event.id in published || (event.id in claimed && claimed[event.id] > now) {
          continue;
        }
        Outbox.LeaseOne(box.claimed, events, event, claimUntil);
        claimed := claimed[event.id := claimUntil];
        events := events + [event];
        if |events| == most {
          Outbox.FullBatch(box, i, limit, now);
          return;
        }
      }
      Outbox.WholeScan(box, limit, now);
    }

    method MarkOutboxPublished(id: nat, at: int)
      requires Valid()
      modifies this`published, this`claimed
      ensures Valid()
      ensures Relayed() == Outbox.Mark(old(Relayed()), id, at)
      ensures published == old(published)[id := at] && claimed == old(claimed) - {id}
    {
      published := published[id := at];
      claimed := claimed - {id};
    }
  }
}
