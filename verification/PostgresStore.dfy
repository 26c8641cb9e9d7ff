/** The relational store (internal/postgres/store.go): rows in separate tables, written by
    transactions that work on their own copy and commit at the end, so a failed one changes nothing.
    Every transaction is proved against the store value of OrderStore. */
module PostgresStore {
  import opened OrderModel
  import opened Stock
  import opened OrderStore

  /** A row of `orders`. The items and the shipment live in tables of their own. */
  datatype OrderRow = OrderRow(
    merchant: string,
    external: string,
    status: OrderStatus,
    currency: string,
    totals: Totals,
    payment: Option<Payment>)

  function RowOf(order: Order): (row: OrderRow) {
    OrderRow(order.merchant, order.external, order.status, order.currency, order.totals, order.payment)
  }

  /** getOrderTx: the order row joined with its items and its shipment. */
  function Joined(id: string, row: OrderRow, items: seq<Item>, shipment: Option<Shipment>): (order: Order)
    ensures RowOf(order) == row && order.id == id && order.items == items && order.shipment == shipment
  {
    Order(id, row.merchant, row.external, row.status, row.currency, row.totals, items, row.payment, shipment)
  }

  function ShipmentIn(shipments: map<string, Shipment>, id: string): (s: Option<Shipment>) {
    if id in shipments then Some(shipments[id]) else None
  }

  function Join(orders: map<string, OrderRow>, items: map<string, seq<Item>>, shipments: map<string, Shipment>)
    : (r: map<string, Order>)
    requires items.Keys == orders.Keys
  {
    map id | id in orders :: Joined(id, orders[id], items[id], ShipmentIn(shipments, id))
  }

  lemma JoinedAt(orders: map<string, OrderRow>, items: map<string, seq<Item>>, shipments: map<string, Shipment>, id: string)
    requires items.Keys == orders.Keys
    ensures id in Join(orders, items, shipments) <==> id in orders
    ensures id in orders ==>
      Join(orders, items, shipments)[id] == Joined(id, orders[id], items[id], ShipmentIn(shipments, id))
  {
  }

  /** Writing one order's rows changes one joined order. */
  lemma JoinOne(
    orders: map<string, OrderRow>, items: map<string, seq<Item>>, shipments: map<string, Shipment>,
    orders': map<string, OrderRow>, items': map<string, seq<Item>>, shipments': map<string, Shipment>, id: string)
    requires items.Keys == orders.Keys && id in orders'
    requires orders' == orders[id := orders'[id]]
    requires id in items' && items' == items[id := items'[id]]
    requires shipments' == shipments || (id in shipments' && shipments' == shipments[id := shipments'[id]])
    ensures items'.Keys == orders'.Keys
    ensures Join(orders', items', shipments')
         == Join(orders, items, shipments)[id := Joined(id, orders'[id], items'[id], ShipmentIn(shipments', id))]
  {
    assert items'.Keys == orders'.Keys;
    var before, after := Join(orders, items, shipments), Join(orders', items', shipments');
    forall x | x in after && x != id ensures x in before && after[x] == before[x] {
      assert ShipmentIn(shipments', x) == ShipmentIn(shipments, x);
    }
    hide Join, Joined;
    ChangedAt(before, after, id);
  }

  lemma ChangedAt<K, V>(before: map<K, V>, after: map<K, V>, k: K)
    requires k in after && after.Keys == before.Keys + {k}
    requires forall x :: x in after && x != k ==> x in before && after[x] == before[x]
    ensures after == before[k := after[k]]
  {
  }

  // ------------------------------------------------------------ stock statements

  /** The reservation row of one order line. */
  method SelectReservation(rs: seq<Reservation>, order: string, sku: string) returns (found: Option<nat>)
    ensures found == FindReservation(rs, order, sku)
  {
    found := None;
    var i := 0;
    while i < |rs|
      invariant 0 <= i <= |rs|
      invariant found == FindReservation(rs[..i], order, sku)
    {
      assert rs[..i + 1][..i] == rs[..i];
      if Matches(rs[i], order, sku) {
        found := Some(i);
      }
      i := i + 1;
    }
    assert rs[..|rs|] == rs;
  }

  /** The candidate row: most available first, then lowest id. */
  method SelectCandidate(t: Tables, merchant: string, item: Item) returns (best: Option<nat>)
    ensures best == BestRow(t, merchant, item, |t.rows|)
    ensures best.Some? ==> IsBest(t, merchant, item, |t.rows|, best.value)
    ensures best.None? ==> !Stocked(t, merchant, item)
  {
    best := None;
    var i := 0;
    while i < |t.rows|
      invariant 0 <= i <= |t.rows|
      invariant best == BestRow(t, merchant, item, i)
    {
      if Candidate(t, merchant, item, i) && (best.None? || t.rows[best.value].available < t.rows[i].available) {
        best := Some(i);
      }
      i := i + 1;
    }
  }

  /** reserveInventoryItem and the upsert that follows it. */
  method ReserveLine(t: Tables, merchant: string, order: string, item: Item) returns (r: Outcome)
    ensures r == ReserveItem(t, merchant, order, item)
  {
    var existing := SelectReservation(t.reservations, order, item.sku);
    if existing.Some? && t.reservations[existing.value].held {
      if t.reservations[existing.value].quantity != item.quantity {
        return Refused(QuantityMismatch);
      }
      return Reserved(t.(reservations := Upsert(t.reservations, order, item, t.reservations[existing.value].warehouse)));
    }
    var picked := SelectCandidate(t, merchant, item);
    if picked.None? {
      return Refused(InsufficientStock);
    }
    if item.quantity <= 0 {
      return Refused(CheckViolation);
    }
    r := Reserved(TakeFromRow(t, order, item, picked.value));
  }

  /** The loop over the order's items; the first refusal ends the transaction. */
  method ReserveLines(t: Tables, merchant: string, order: string, items: seq<Item>) returns (r: Outcome)
    ensures r == ReserveAll(t, merchant, order, items)
  {
    hide ReserveItem;
    r := Reserved(t);
    var n := 0;
    while n < |items|
      invariant 0 <= n <= |items|
      invariant r.Reserved? && r == ReserveFirst(t, merchant, order, items, n)
    {
      r := ReserveLine(r.tables, merchant, order, items[n]);
      n := n + 1;
      if r.Refused? {
        RefusalIsFinal(t, merchant, order, items, n, |items|);
        return;
      }
    }
  }

  lemma {:induction false} RefusalIsFinal(t: Tables, merchant: string, order: string, items: seq<Item>, n: nat, m: nat)
    requires n <= m <= |items| && ReserveFirst(t, merchant, order, items, n).Refused?
    ensures ReserveFirst(t, merchant, order, items, m) == ReserveFirst(t, merchant, order, items, n)
    decreases m - n
  {
    hide ReserveItem;
    if n < m {
      RefusalIsFinal(t, merchant, order, items, n, m - 1);
    }
  }

  /** releaseInventoryItems: every stock row joined with the order's held reservations. */
  method ReleaseRows(t: Tables, order: string) returns (rows: seq<StockRow>)
    ensures rows == Release(t, order).rows
  {
    rows := t.rows;
    var i := 0;
    while i < |rows|
      invariant 0 <= i <= |rows| == |t.rows|
      invariant forall j :: 0 <= j < i ==> rows[j] == ReleaseRow(t.rows[j], t.reservations, order)
      invariant forall j :: i <= j < |rows| ==> rows[j] == t.rows[j]
    {
      var found := SelectReservation(t.reservations, order, rows[i].sku);
      if found.Some? {
        var sr := t.reservations[found.value];
        if sr.held && sr.warehouse == Some(rows[i].warehouse) && sr.quantity != 0 {
          rows := rows[i := rows[i].(available := rows[i].available + sr.quantity,
                                     reserved := Greatest(rows[i].reserved - sr.quantity, 0))];
        }
      }
      i := i + 1;
    }
  }

  ghost predicate NoneNegative(amounts: map<string, int>) {
    forall id :: id in amounts ==> amounts[id] >= 0
  }

  class Postgres {
    var orders: map<string, OrderRow>
    var orderItems: map<string, seq<Item>>
    var shipments: map<string, Shipment>
    var externalIndex: map<IndexKey, string>   // UNIQUE (merchant_id, external_order_id)
    var idempotencyKeys: map<IndexKey, string>
    var outbox: seq<Event>
    var audits: seq<AuditLog>
    var tables: Tables
    var authorizations: map<string, int>       // the amounts of payment_authorizations, by order

    /** Foreign keys: items and shipments belong to orders, and every order has its item rows. No authorized
        amount is negative. */
    ghost predicate Valid()
      reads this
    {
      && orderItems.Keys == orders.Keys
      && shipments.Keys <= orders.Keys
      && NoneNegative(authorizations)
      && forall k :: k in idempotencyKeys ==> idempotencyKeys[k] in orders
    }

    /** The store as a value: all tables joined. */
    ghost function View(): (s: Store)
      requires Valid()
      reads this
    {
      Store(Join(orders, orderItems, shipments), externalIndex, idempotencyKeys, outbox, audits, Some(tables))
    }

    constructor (tables: Tables)
      ensures Valid() && View() == NewStore(Some(tables))
    {
      orders, orderItems, shipments := map[], map[], map[];
      externalIndex, idempotencyKeys := map[], map[];
      outbox, audits := [], [];
      this.tables := tables;
      authorizations := map[];
    }

    method InsertOrder(merchant: string, key: string, order: Order, event: Event, audit: AuditLog)
      returns (r: Result<(Order, bool)>)
      requires Valid() && order.merchant == merchant && order.shipment.None?
      modifies this
      ensures Valid()
      ensures (View(), r) == OrderStore.InsertOrder(old(View()), merchant, key, order, event, audit)
    {
      hide RowsAccepted, Join, NoneNegative, CanTransitionOrderStatus;
      JoinedAt(orders, orderItems, shipments, order.id);
      if Columns(merchant, key) in idempotencyKeys {
        var id := idempotencyKeys[Columns(merchant, key)];
        JoinedAt(orders, orderItems, shipments, id);
        var existing := GetOrder(id);
        return Ok((existing.value, true));
      }
      if Columns(merchant, order.external) in externalIndex || order.id in orders {
        return Err(DuplicateOrder);
      }
      var accepted := InsertItems(order.items);
      if !accepted {
        return Err(ConstraintViolation);
      }
      InsertRows(merchant, key, order, event, audit);
      r := Ok((order, false));
    }

    /** The rows of a new order, its two keys, its event and its audit row. */
    method InsertRows(merchant: string, key: string, order: Order, event: Event, audit: AuditLog)
      requires Valid() && order.id !in orders && order.shipment.None?
      modifies this`orders, this`orderItems, this`externalIndex, this`idempotencyKeys, this`outbox, this`audits
      ensures Valid()
      ensures View() == old(View()).(
        orders := old(View()).orders[order.id := order],
        byExternal := old(externalIndex)[Columns(merchant, order.external) := order.id],
        byIdempotency := old(idempotencyKeys)[Columns(merchant, key) := order.id],
        outbox := old(outbox) + [event],
        audits := old(audits) + [audit])
    {
      hide Join, NoneNegative;
      orders := orders[order.id := RowOf(order)];
      orderItems := orderItems[order.id := order.items];
      externalIndex := externalIndex[Columns(merchant, order.external) := order.id];
      idempotencyKeys := idempotencyKeys[Columns(merchant, key) := order.id];
      outbox := outbox + [event];
      audits := audits + [audit];
      JoinOne(old(orders), old(orderItems), old(shipments), orders, orderItems, shipments, order.id);
    }

    /** One row per line, under the uniqueness of (order, SKU) and the checks on quantity and price. */
    static method InsertItems(items: seq<Item>) returns (accepted: bool)
      ensures accepted <==> RowsAccepted(items)
    {
      var skus: set<string> := {};
      var n := 0;
      while n < |items|
        invariant 0 <= n <= |items|
        invariant RowsAccepted(items[..n])
        invariant forall s :: s in skus <==> exists i :: 0 <= i < n && items[i].sku == s
      {
        if items[n].sku in skus || !(0 < items[n].quantity < INTEGER_LIMIT) || items[n].unitPrice < 0 {
          return false;
        }
        skus := skus + {items[n].sku};
        n := n + 1;
      }
      assert items[..n] == items;
      accepted := true;
    }

    method GetOrder(id: string) returns (r: Result<Order>)
      requires Valid()
      ensures r == if id in View().orders then Ok(View().orders[id]) else Err(NotFound)
    {
      if id !in orders {
        return Err(NotFound);
      }
      r := Ok(Joined(id, orders[id], orderItems[id], if id in shipments then Some(shipments[id]) else None));
    }

    method UpdateOrderStatus(id: string, status: OrderStatus, event: Event, audit: AuditLog) returns (r: Result<Order>)
      requires Valid()
      modifies this`orders, this`outbox, this`audits
      ensures Valid()
      ensures (View(), r) == OrderStore.UpdateOrderStatus(old(View()), id, status, event, audit)
    {
      hide Join, NoneNegative, CanTransitionOrderStatus;
      JoinedAt(orders, orderItems, shipments, id);
      if id !in orders {
        return Err(NotFound);
      }
      if !CanTransitionOrderStatus(orders[id].status, status) {
        return Err(InvalidStateTransition);
      }
      orders := orders[id := orders[id].(status := status)];
      outbox := outbox + [event];
      audits := audits + [audit];
      r := GetOrder(id);
      JoinOne(old(orders), old(orderItems), old(shipments), orders, orderItems, shipments, id);
    }

    method RecordInventoryReserved(source: Event, next: Event, audit: AuditLog) returns (r: Result<()>)
      requires Valid()
      modifies this`orders, this`orderItems, this`outbox, this`audits, this`tables
      ensures Valid()
      ensures (View(), r) == OrderStore.RecordInventoryReserved(old(View()), source, next, audit)
    {
      hide ReserveAll, Join, NoneNegative, CanTransitionOrderStatus;
      var id := source.order;
      JoinedAt(orders, orderItems, shipments, id);
      if id !in orders {
        return Err(NotFound);
      }
      if !CanTransitionOrderStatus(orders[id].status, StatusInventoryReserved) {
        return Err(InvalidStateTransition);
      }
      if orderItems[id] == [] {
        return Err(NotFound);
      }
      var outcome := ReserveLines(tables, source.merchant, id, orderItems[id]);
      if outcome.Refused? {
        return Err(StockFailure(outcome.error));
      }
      tables := outcome.tables;
      orderItems := orderItems[id := MarkItems(orderItems[id], ItemReserved)];
      orders := orders[id := orders[id].(status := StatusInventoryReserved)];
      outbox := outbox + [next];
      audits := audits + [audit];
      r := Ok(());
      JoinOne(old(orders), old(orderItems), old(shipments), orders, orderItems, shipments, id);
    }

    method RecordInventoryRejected(source: Event, next: Event, audit: AuditLog) returns (r: Result<()>)
      requires Valid()
      modifies this`orderItems, this`outbox, this`audits
      ensures Valid()
      ensures (View(), r) == OrderStore.RecordInventoryRejected(old(View()), source, next, audit)
    {
      hide Join, NoneNegative, CanTransitionOrderStatus;
      var id := source.order;
      JoinedAt(orders, orderItems, shipments, id);
      if id !in orders {
        return Err(NotFound);
      }
      orderItems := orderItems[id := MarkItems(orderItems[id], ItemRejected)];
      outbox := outbox + [next];
      audits := audits + [audit];
      r := Ok(());
      JoinOne(old(orders), old(orderItems), old(shipments), orders, orderItems, shipments, id);
    }

    method RecordPaymentAuthorized(source: Event, next: Event, payment: Payment, audit: AuditLog) returns (r: Result<()>)
      requires Valid()
      modifies this`orders, this`outbox, this`audits, this`authorizations
      ensures Valid()
      ensures (View(), r) == OrderStore.RecordPaymentAuthorized(old(View()), source, next, payment, audit)
    {
      hide Join;
      var id := source.order;
      JoinedAt(orders, orderItems, shipments, id);
      if id !in orders {
        return Err(NotFound);
      }
      var row := orders[id];
      if !CanTransitionOrderStatus(row.status, StatusPaymentAuthorized) {
        return Err(InvalidStateTransition);
      }
      var provider := payment.provider;
      if provider == "" {
        provider := if row.payment.Some? && row.payment.value.provider != "" then row.payment.value.provider else "fake-payment";
      }
      if row.totals.total < 0 {
        return Err(ConstraintViolation);
      }
      authorizations := authorizations[id := row.totals.total];
      var paid := payment.(provider := provider);
      orders := orders[id := row.(status := StatusPaymentAuthorized, payment := Some(paid))];
      outbox := outbox + [next.(amount := row.totals.total)];
      audits := audits + [audit];
      r := Ok(());
      JoinOne(old(orders), old(orderItems), old(shipments), orders, orderItems, shipments, id);
    }

    method RecordPaymentFailed(source: Event, next: Event, audit: AuditLog) returns (r: Result<()>)
      requires Valid()
      modifies this`orders, this`outbox, this`audits
      ensures Valid()
      ensures (View(), r) == OrderStore.RecordPaymentFailed(old(View()), source, next, audit)
    {
      hide Join, NoneNegative, CanTransitionOrderStatus;
      var id := source.order;
      JoinedAt(orders, orderItems, shipments, id);
      if id !in orders {
        return Err(NotFound);
      }
      var row := orders[id];
      var provider := if row.payment.Some? && row.payment.value.provider != "" then row.payment.value.provider else "fake-payment";
      orders := orders[id := row.(payment := Some(Payment(provider, AuthorizationFailed, "")))];
      outbox := outbox + [next];
      audits := audits + [audit];
      r := Ok(());
      JoinOne(old(orders), old(orderItems), old(shipments), orders, orderItems, shipments, id);
    }

    method RecordShipmentCreated(source: Event, next: Event, shipment: Shipment, audit: AuditLog) returns (r: Result<()>)
      requires Valid()
      modifies this`orders, this`shipments, this`outbox, this`audits
      ensures Valid()
      ensures (View(), r) == OrderStore.RecordShipmentCreated(old(View()), source, next, shipment, audit)
    {
      hide Join, NoneNegative, CanTransitionOrderStatus;
      var id := source.order;
      JoinedAt(orders, orderItems, shipments, id);
      if id !in orders {
        return Err(NotFound);
      }
      if !CanTransitionOrderStatus(orders[id].status, StatusShipmentCreated) {
        return Err(InvalidStateTransition);
      }
      shipments := shipments[id := shipment];
      orders := orders[id := orders[id].(status := StatusShipmentCreated)];
      outbox := outbox + [next];
      audits := audits + [audit];
      r := Ok(());
      JoinOne(old(orders), old(orderItems), old(shipments), orders, orderItems, shipments, id);
    }

    method RecordShipmentFailed(source: Event, next: Event, audit: AuditLog) returns (r: Result<()>)
      requires Valid()
      modifies this`outbox, this`audits
      ensures Valid()
      ensures (View(), r) == OrderStore.RecordShipmentFailed(old(View()), source, next, audit)
    {
      hide Join, NoneNegative, CanTransitionOrderStatus;
      var id := source.order;
      JoinedAt(orders, orderItems, shipments, id);
      if id !in orders {
        return Err(NotFound);
      }
      outbox := outbox + [next];
      audits := audits + [audit];
      r := Ok(());
      JoinOne(old(orders), old(orderItems), old(shipments), orders, orderItems, shipments, id);
    }

    /** releaseReservedStock: stock rows, reservations and item rows of one order. */
    method ReleaseReservedStock(id: string)
      requires Valid() && id in orders
      modifies this`orderItems, this`tables
      ensures Valid() && tables == Release(old(tables), id)
      ensures orderItems == old(orderItems)[id := ReleaseItems(old(orderItems)[id])]
    {
      var rows := ReleaseRows(tables, id);
      tables := tables.(rows := rows, reservations := ReleaseReservations(tables.reservations, id));
      orderItems := orderItems[id := ReleaseItems(orderItems[id])];
    }

    method RecordOrderCancelled(source: Event, next: Event, audit: AuditLog) returns (r: Result<()>)
      requires Valid()
      modifies this`orders, this`orderItems, this`outbox, this`audits, this`tables
      ensures Valid()
      ensures (View(), r) == OrderStore.RecordOrderCancelled(old(View()), source, next, audit)
    {
      hide Release, Join, ReleaseItems, VoidPayment, NoneNegative, CanTransitionOrderStatus;
      var id := source.order;
      JoinedAt(orders, orderItems, shipments, id);
      if id !in orders {
        return Err(NotFound);
      }
      if !CanTransitionOrderStatus(orders[id].status, StatusCancelled) {
        return Err(InvalidStateTransition);
      }
      orders := orders[id := orders[id].(status := StatusCancelled)];
      ReleaseReservedStock(id);
      orders := orders[id := orders[id].(payment := VoidPayment(orders[id].payment))];
      Overwrite(old(orders), id, old(orders)[id].(status := StatusCancelled), orders[id]);
      outbox := outbox + [next];
      audits := audits + [audit];
      r := Ok(());
      JoinOne(old(orders), old(orderItems), old(shipments), orders, orderItems, shipments, id);
    }

    method RecordNotificationQueued(source: Event, audit: AuditLog) returns (r: Result<()>)
      requires Valid()
      modifies this`audits
      ensures Valid()
      ensures (View(), r) == OrderStore.RecordNotificationQueued(old(View()), source, audit)
    {
      if source.order !in orders {
        return Err(NotFound);
      }
      audits := audits + [audit];
      r := Ok(());
    }

    /** applyCompensationEffects: stock back for a failed payment or shipment, payment voided for the latter. */
    method ApplyCompensationEffects(source: Event)
      requires Valid() && source.order in orders
      modifies this`orders, this`orderItems, this`tables
      ensures Valid()
      ensures orders == old(orders)[source.order := old(orders)[source.order].(payment :=
        if source.kind == ShipmentFailed then VoidPayment(old(orders)[source.order].payment) else old(orders)[source.order].payment)]
      ensures orderItems == old(orderItems)[source.order :=
        if ReleasesStock(source.kind) then ReleaseItems(old(orderItems)[source.order]) else old(orderItems)[source.order]]
      ensures tables == if ReleasesStock(source.kind) then Release(old(tables), source.order) else old(tables)
    {
      hide Release, ReleaseItems, VoidPayment, NoneNegative, CanTransitionOrderStatus;
      var id := source.order;
      if source.kind == PaymentFailed || source.kind == ShipmentFailed {
        ReleaseReservedStock(id);
      }
      if source.kind == ShipmentFailed {
        orders := orders[id := orders[id].(payment := VoidPayment(orders[id].payment))];
      }
    }

    method RecordCompensation(source: Event, status: OrderStatus, audit: AuditLog) returns (r: Result<()>)
      requires Valid()
      modifies this`orders, this`orderItems, this`audits, this`tables
      ensures Valid()
      ensures (View(), r) == OrderStore.RecordCompensation(old(View()), source, status, audit)
    {
      hide Release, Join, ReleaseItems, VoidPayment, Compensated, NoneNegative, CanTransitionOrderStatus;
      var id := source.order;
      JoinedAt(orders, orderItems, shipments, id);
      if id !in orders {
        return Err(NotFound);
      }
      if !CanTransitionOrderStatus(orders[id].status, status) {
        return Err(InvalidStateTransition);
      }
      orders := orders[id := orders[id].(status := status)];
      ApplyCompensationEffects(source);
      Overwrite(old(orders), id, old(orders)[id].(status := status), orders[id]);
      audits := audits + [audit];
      r := Ok(());
      assert outbox + [] == outbox;
      JoinOne(old(orders), old(orderItems), old(shipments), orders, orderItems, shipments, id);
      CompensatedRow(id, old(orders)[id], old(orderItems)[id], ShipmentIn(shipments, id), source.kind, status);
    }
  }

  lemma Overwrite<K, V>(m: map<K, V>, k: K, a: V, b: V)
    ensures m[k := a][k := b] == m[k := b]
  {
  }

  /** Compensating the joined order is compensating its rows. */
  lemma CompensatedRow(id: string, row: OrderRow, items: seq<Item>, shipment: Option<Shipment>, kind: EventType, status: OrderStatus)
    ensures Compensated(Joined(id, row, items, shipment), kind, status)
         == Joined(id,
                   row.(status := status, payment := if kind == ShipmentFailed then VoidPayment(row.payment) else row.payment),
                   if ReleasesStock(kind) then ReleaseItems(items) else items, shipment)
  {
  }
}
