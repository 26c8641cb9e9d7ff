/** How one order's stock moves leave the books and every other order's reservations. */
module SagaStock {
  import opened OrderModel
  import opened Stock
  import opened StockLaws
  import opened Topology
  import opened OrderStore
  import opened Fulfillment
  import opened Saga
  import opened SagaInvariant

  lemma {:induction false} FindAfterAppend(rs: seq<Reservation>, r: Reservation, order: string, sku: string)
    ensures FindReservation(rs + [r], order, sku)
         == if Matches(r, order, sku) then Some(|rs|) else FindReservation(rs, order, sku)
  {
    assert (rs + [r])[..|rs|] == rs;
  }

  lemma {:induction false} FindReplaced(rs: seq<Reservation>, r: Reservation, order: string, sku: string)
    requires FindReservation(rs, order, sku).Some? && Matches(r, order, sku)
    ensures FindReservation(rs[FindReservation(rs, order, sku).value := r], order, sku) == FindReservation(rs, order, sku)
  {
    var i := FindReservation(rs, order, sku).value;
    var n := |rs| - 1;
    if i < n {
      assert rs[i := r][..n] == rs[..n][i := r];
      FindReplaced(rs[..n], r, order, sku);
    }
  }

  /** A held line is found by its key; nothing about any other key changes. */
  lemma UpsertHolds(rs: seq<Reservation>, order: string, item: Item, w: Option<string>, o: string, sku: string)
    ensures var rs' := Upsert(rs, order, item, w);
      IsHeld(rs', o, sku) == if o == order && sku == item.sku then true else IsHeld(rs, o, sku)
    ensures o != order && HoldsNothing(rs, o) ==> HoldsNothing(Upsert(rs, order, item, w), o)
    ensures forall i :: 0 <= i < |Upsert(rs, order, item, w)| ==>
      Upsert(rs, order, item, w)[i].order == order || (i < |rs| && Upsert(rs, order, item, w)[i] == rs[i])
  {
    match FindReservation(rs, order, item.sku)
    case Some(i) =>
      var r := Upsert(rs, order, item, w)[i];
      if o == order && sku == item.sku {
        FindReplaced(rs, r, order, sku);
      } else {
        FindAfterUpdate(rs, i, r, o, sku);
      }
    case None =>
      FindAfterAppend(rs, Reservation(order, item.sku, w, item.quantity, true), o, sku);
  }

  /** Whichever way a line is reserved, its reservation row is upserted. */
  lemma ReserveItemUpserts(t: Tables, merchant: string, order: string, item: Item) returns (w: Option<string>)
    requires ReserveItem(t, merchant, order, item).Reserved?
    ensures ReserveItem(t, merchant, order, item).tables.reservations == Upsert(t.reservations, order, item, w)
  {
    if IsHeld(t.reservations, order, item.sku) {
      w := t.reservations[FindReservation(t.reservations, order, item.sku).value].warehouse;
    } else {
      w := Some(t.rows[BestRow(t, merchant, item, |t.rows|).value].warehouse);
    }
  }

  lemma {:induction false} ReserveIsOwn(t: Tables, merchant: string, order: string, items: seq<Item>, n: nat, o: string)
    requires n <= |items| && ReserveFirst(t, merchant, order, items, n).Reserved?
    ensures var rs' := ReserveFirst(t, merchant, order, items, n).tables.reservations;
      && (o != order && HoldsNothing(t.reservations, o) ==> HoldsNothing(rs', o))
      && (forall i :: 0 <= i < |rs'| ==> rs'[i].order == order || (i < |t.reservations| && rs'[i].order == t.reservations[i].order))
  {
    if n > 0 {
      ReserveIsOwn(t, merchant, order, items, n - 1, o);
      var t1 := ReserveFirst(t, merchant, order, items, n - 1).tables;
      var w := ReserveItemUpserts(t1, merchant, order, items[n - 1]);
      UpsertHolds(t1.reservations, order, items[n - 1], w, o, "");
    }
  }

  lemma {:induction false} ReleaseHolds(rs: seq<Reservation>, order: string, o: string, sku: string)
    ensures FindReservation(ReleaseReservations(rs, order), o, sku) == FindReservation(rs, o, sku)
    ensures o != order ==> forall q :: HeldFor(ReleaseReservations(rs, order), o, sku, q) == HeldFor(rs, o, sku, q)
  {
    if |rs| > 0 {
      var n := |rs| - 1;
      assert ReleaseReservations(rs, order)[..n] == ReleaseReservations(rs[..n], order);
      ReleaseHolds(rs[..n], order, o, sku);
    }
  }

  // ------------------------------------------------------------ the three ways a step treats stock

  ghost predicate OnlyOrder(s: State, s': State, id: string) {
    && id in s.store.orders && s'.store.orders.Keys == s.store.orders.Keys
    && (forall x :: x in s.store.orders && x != id ==> s'.store.orders[x] == s.store.orders[x])
    && s.store.orders[id].id == id
    && SameTerms(s.store.orders[id], s'.store.orders[id])
    && (forall x :: x in s.store.orders ==> s.store.orders[x].id == x)
  }

  lemma StockUntouched(s: State, s': State, id: string)
    requires StockLink(s.store) && OnlyOrder(s, s', id) && s'.store.stock == s.store.stock
    requires AllItems(s.store.orders[id], ItemReserved) <==> AllItems(s'.store.orders[id], ItemReserved)
    ensures StockLink(s'.store)
  {
    if s.store.stock.Some? {
      forall x | x in s'.store.orders ensures LinkOk(s.store.stock.value, s'.store.orders[x]) {
        assert LinkOk(s.store.stock.value, s.store.orders[x]);
        SameSkus(s.store.stock.value, s.store.orders[x], s'.store.orders[x]);
      }
    }
  }

  lemma SameSkus(t: Tables, a: Order, b: Order)
    requires LinkOk(t, a) && (AllItems(a, ItemReserved) <==> AllItems(b, ItemReserved))
    requires a == b || SameTerms(a, b)
    ensures LinkOk(t, b)
  {
    if AllItems(b, ItemReserved) {
      forall i | 0 <= i < |b.items| ensures HeldFor(t.reservations, b.id, b.items[i].sku, b.items[i].quantity) {
        assert a == b || Snapshot(a.items[i]) == Snapshot(b.items[i]);
        assert HeldFor(t.reservations, a.id, a.items[i].sku, a.items[i].quantity);
      }
    }
  }

  lemma ReleaseKeepsLink(t: Tables, id: string, order: Order)
    requires LinkOk(t, order) && order.id != id
    ensures LinkOk(Release(t, id), order)
  {
    hide HeldFor;
    forall i | 0 <= i < |order.items|
      ensures HeldFor(t.reservations, order.id, order.items[i].sku, order.items[i].quantity)
           == HeldFor(Release(t, id).reservations, order.id, order.items[i].sku, order.items[i].quantity)
    {
      ReleaseHolds(t.reservations, id, order.id, order.items[i].sku);
    }
  }

  lemma StockReturned(s: State, s': State, id: string)
    requires StockLink(s.store) && OnlyOrder(s, s', id) && s'.store.stock == ReturnStock(s.store, id).stock
    requires !AllItems(s'.store.orders[id], ItemReserved)
    ensures StockLink(s'.store)
  {
    hide HoldsAll, AllItems;
    if s.store.stock.Some? {
      var t := s.store.stock.value;
      var t' := Release(t, id);
      ReleaseKeepsBooks(t, id);
      forall x | x in s'.store.orders ensures LinkOk(t', s'.store.orders[x]) {
        if x != id {
          assert LinkOk(t, s.store.orders[x]);
          ReleaseKeepsLink(t, id, s.store.orders[x]);
        } else {
          assert HoldsNothing(t'.reservations, id);
        }
      }
    }
  }

  lemma StockTaken(s: State, s': State, source: Event)
    requires StockLink(s.store) && OnlyOrder(s, s', source.order)
    requires s.store.stock.Some? ==> TakeStock(s.store, source).Ok? && s'.store.stock == TakeStock(s.store, source).value.stock
    requires s.store.stock.None? ==> s'.store.stock.None?
    requires AllItems(s'.store.orders[source.order], ItemReserved)
    ensures StockLink(s'.store)
  {
    if s.store.stock.Some? {
      var t, id, items := s.store.stock.value, source.order, s.store.orders[source.order].items;
      var t' := ReserveAll(t, source.merchant, id, items).tables;
      ReserveFirstKeepsBooks(t, source.merchant, id, items, |items|);
      ReserveIsOwn(t, source.merchant, id, items, |items|, id);
      forall x | x in s'.store.orders ensures LinkOk(t', s'.store.orders[x]) {
        TakenLink(t, source, items, s.store.orders[x], s'.store.orders[x], x);
      }
    }
  }

  lemma TakenLink(t: Tables, source: Event, items: seq<Item>, a: Order, b: Order, x: string)
    requires ReserveAll(t, source.merchant, source.order, items).Reserved?
    requires LinkOk(t, a) && a.id == b.id == x
    requires if x == source.order then SameTerms(a, b) && a.items == items && AllItems(b, ItemReserved) else a == b
    ensures LinkOk(ReserveAll(t, source.merchant, source.order, items).tables, b)
  {
    hide HeldFor;
    var t' := ReserveAll(t, source.merchant, source.order, items).tables;
    ReserveIsOwn(t, source.merchant, source.order, items, |items|, x);
    if AllItems(b, ItemReserved) {
      forall i | 0 <= i < |b.items| ensures HeldFor(t'.reservations, x, b.items[i].sku, b.items[i].quantity) {
        if x == source.order {
          assert Snapshot(a.items[i]) == Snapshot(b.items[i]);
          ReserveFirstHolds(t, source.merchant, source.order, items, |items|, i);
        } else {
          ReserveFirstKeepsHeld(t, source.merchant, source.order, items, |items|, x, b.items[i].sku, b.items[i].quantity);
        }
      }
    }
  }
}
