/** What the reservation loop and the release join promise: an exact, all-or-nothing reservation
    from the fullest rows, and a release that undoes it. */
module StockLaws {
  import opened OrderModel
  import opened Stock

  ghost predicate PositiveQuantities(items: seq<Item>) {
    forall i :: 0 <= i < |items| ==> items[i].quantity > 0
  }

  /** The order holds no stock, as every order does before its reservation and after its release. */
  ghost predicate HoldsNothing(rs: seq<Reservation>, order: string) {
    forall i :: 0 <= i < |rs| && rs[i].order == order ==> !rs[i].held
  }

  /** Nothing about `sku` that a reservation for `order` looks at differs between the two tables. */
  ghost predicate SkuUntouched(a: Tables, b: Tables, order: string, sku: string) {
    && a.warehouses == b.warehouses
    && |a.rows| == |b.rows|
    && (forall i :: 0 <= i < |a.rows| ==>
          && a.rows[i].warehouse == b.rows[i].warehouse
          && a.rows[i].sku == b.rows[i].sku
          && (a.rows[i].sku == sku ==> a.rows[i] == b.rows[i]))
    && IsHeld(a.reservations, order, sku) == IsHeld(b.reservations, order, sku)
  }

  lemma {:induction false} FindAfterUpdate(rs: seq<Reservation>, i: nat, r: Reservation, order: string, sku: string)
    requires i < |rs| && !Matches(rs[i], order, sku) && !Matches(r, order, sku)
    ensures FindReservation(rs[i := r], order, sku) == FindReservation(rs, order, sku)
  {
    var n := |rs| - 1;
    if i == n {
      assert rs[i := r][..n] == rs[..n];
    } else {
      assert rs[i := r][..n] == rs[..n][i := r];
      FindAfterUpdate(rs[..n], i, r, order, sku);
    }
  }

  lemma ReserveItemLeavesSku(t: Tables, merchant: string, order: string, item: Item, sku: string)
    requires item.sku != sku && ReserveItem(t, merchant, order, item).Reserved?
    ensures SkuUntouched(t, ReserveItem(t, merchant, order, item).tables, order, sku)
  {
    var t' := ReserveItem(t, merchant, order, item).tables;
    match FindReservation(t.reservations, order, item.sku)
    case Some(i) => FindAfterUpdate(t.reservations, i, t'.reservations[i], order, sku);
    case None => assert t'.reservations[..|t.reservations|] == t.reservations;
  }

  lemma {:induction false} ReserveFirstLeavesSku(
    t: Tables, merchant: string, order: string, items: seq<Item>, n: nat, sku: string)
    requires n <= |items| && ReserveFirst(t, merchant, order, items, n).Reserved?
    requires forall i :: 0 <= i < n ==> items[i].sku != sku
    ensures SkuUntouched(t, ReserveFirst(t, merchant, order, items, n).tables, order, sku)
  {
    if n > 0 {
      ReserveFirstLeavesSku(t, merchant, order, items, n - 1, sku);
      ReserveItemLeavesSku(ReserveFirst(t, merchant, order, items, n - 1).tables, merchant, order, items[n - 1], sku);
    }
  }

  lemma {:induction false} BestRowDependsOnSku(a: Tables, b: Tables, merchant: string, order: string, item: Item, n: nat)
    requires SkuUntouched(a, b, order, item.sku) && n <= |a.rows|
    ensures BestRow(a, merchant, item, n) == BestRow(b, merchant, item, n)
  {
    if n > 0 {
      BestRowDependsOnSku(a, b, merchant, order, item, n - 1);
    }
  }

  function Pick(t: Tables, merchant: string, item: Item): (r: Option<nat>)
    ensures r.Some? <==> Stocked(t, merchant, item)
    ensures r.Some? ==> IsBest(t, merchant, item, |t.rows|, r.value)
  {
    BestRow(t, merchant, item, |t.rows|)
  }

  function Taken(row: StockRow, quantity: int): (r: StockRow) {
    row.(available := row.available - quantity, reserved := row.reserved + quantity)
  }

  /** `t'` is `t` with each of the first `n` lines taken whole from the row `t` itself ranks best for
      it, and no other row touched. */
  ghost predicate TakenFromBest(t: Tables, t': Tables, merchant: string, items: seq<Item>, n: nat)
    requires n <= |items|
  {
    && |t'.rows| == |t.rows|
    && (forall i :: 0 <= i < n ==>
          var pick := Pick(t, merchant, items[i]);
          pick.Some? && t'.rows[pick.value] == Taken(t.rows[pick.value], items[i].quantity))
    && forall j :: 0 <= j < |t.rows| && t'.rows[j] != t.rows[j] ==>
         exists i :: 0 <= i < n && Pick(t, merchant, items[i]) == Some(j)
  }

  /** Between two tables that agree on the line's SKU, the line has the same outcome, from the same row. */
  lemma LineSeesItsSku(t: Tables, t1: Tables, merchant: string, order: string, item: Item)
    requires SkuUntouched(t, t1, order, item.sku) && !IsHeld(t.reservations, order, item.sku) && item.quantity > 0
    ensures var r := ReserveItem(t1, merchant, order, item);
      match Pick(t, merchant, item)
      case None => r == Refused(InsufficientStock)
      case Some(b) =>
        && r.Reserved? && b < |t1.rows| && t1.rows[b] == t.rows[b]
        && r.tables.rows == t1.rows[b := Taken(t1.rows[b], item.quantity)]
  {
    BestRowDependsOnSku(t, t1, merchant, order, item, |t.rows|);
  }

  lemma NotHeld(rs: seq<Reservation>, order: string, sku: string)
    requires HoldsNothing(rs, order)
    ensures !IsHeld(rs, order, sku)
  {
  }

  // ------------------------------------------------------------ repeated SKUs

  /** An earlier line has the SKU of line `k`. */
  ghost predicate Repeats(items: seq<Item>, k: nat)
    requires k < |items|
  {
    exists j :: 0 <= j < k && items[j].sku == items[k].sku
  }

  /** Every earlier line with the SKU of line `k` asks for the same quantity. */
  ghost predicate SameQuantity(items: seq<Item>, k: nat)
    requires k < |items|
  {
    forall j :: 0 <= j < k && items[j].sku == items[k].sku ==> items[j].quantity == items[k].quantity
  }

  /** Line `k` can be served: one warehouse has it, and it repeats no SKU with another quantity. */
  ghost predicate Servable(t: Tables, merchant: string, items: seq<Item>, k: nat)
    requires k < |items|
  {
    Stocked(t, merchant, items[k]) && SameQuantity(items, k)
  }

  /** Why the first line that cannot be served is refused. */
  ghost function Fault(items: seq<Item>, k: nat): (e: StockError)
    requires k < |items|
  {
    if Repeats(items, k) then QuantityMismatch else InsufficientStock
  }

  /** The reservation row of one order and SKU is held, for this quantity. */
  ghost predicate HeldFor(rs: seq<Reservation>, order: string, sku: string, quantity: int) {
    IsHeld(rs, order, sku) && rs[FindReservation(rs, order, sku).value].quantity == quantity
  }

  lemma ReserveItemHolds(t: Tables, merchant: string, order: string, item: Item)
    requires ReserveItem(t, merchant, order, item).Reserved?
    ensures HeldFor(ReserveItem(t, merchant, order, item).tables.reservations, order, item.sku, item.quantity)
  {
    hide BestRow;
    var rs, rs' := t.reservations, ReserveItem(t, merchant, order, item).tables.reservations;
    match FindReservation(rs, order, item.sku)
    case Some(i) => FoundAgain(rs, i, rs'[i], order, item.sku);
    case None => assert rs'[..|rs|] == rs;
  }

  lemma {:induction false} FoundAgain(rs: seq<Reservation>, i: nat, r: Reservation, order: string, sku: string)
    requires FindReservation(rs, order, sku) == Some(i) && Matches(r, order, sku)
    ensures FindReservation(rs[i := r], order, sku) == Some(i)
  {
    var n := |rs| - 1;
    if i == n {
      assert rs[i := r][n] == r;
    } else {
      assert rs[i := r][..n] == rs[..n][i := r];
      FoundAgain(rs[..n], i, r, order, sku);
    }
  }

  /** Reserving one line keeps every other reservation. */
  lemma ReserveItemKeepsHeld(t: Tables, merchant: string, order: string, item: Item, o: string, sku: string, quantity: int)
    requires ReserveItem(t, merchant, order, item).Reserved? && (o != order || item.sku != sku)
    ensures HeldFor(t.reservations, o, sku, quantity) ==>
      HeldFor(ReserveItem(t, merchant, order, item).tables.reservations, o, sku, quantity)
  {
    hide BestRow;
    var rs, rs' := t.reservations, ReserveItem(t, merchant, order, item).tables.reservations;
    match FindReservation(rs, order, item.sku)
    case Some(i) => FindAfterUpdate(rs, i, rs'[i], o, sku);
    case None => assert rs'[..|rs|] == rs;
  }

  lemma {:induction false} ReserveFirstKeepsHeld(
    t: Tables, merchant: string, order: string, items: seq<Item>, n: nat, o: string, sku: string, quantity: int)
    requires n <= |items| && ReserveFirst(t, merchant, order, items, n).Reserved? && o != order
    ensures HeldFor(t.reservations, o, sku, quantity) ==>
      HeldFor(ReserveFirst(t, merchant, order, items, n).tables.reservations, o, sku, quantity)
  {
    hide ReserveItem, HeldFor;
    if n > 0 {
      ReserveFirstKeepsHeld(t, merchant, order, items, n - 1, o, sku, quantity);
      ReserveItemKeepsHeld(ReserveFirst(t, merchant, order, items, n - 1).tables, merchant, order, items[n - 1], o, sku, quantity);
    }
  }

  /** After the first `n` lines each of them is held, for its own quantity. */
  lemma {:induction false} ReserveFirstHolds(t: Tables, merchant: string, order: string, items: seq<Item>, n: nat, j: nat)
    requires j < n <= |items| && ReserveFirst(t, merchant, order, items, n).Reserved?
    ensures HeldFor(ReserveFirst(t, merchant, order, items, n).tables.reservations, order, items[j].sku, items[j].quantity)
  {
    hide ReserveItem, HeldFor;
    var before := ReserveFirst(t, merchant, order, items, n - 1);
    assert ReserveFirst(t, merchant, order, items, n) == ReserveItem(before.tables, merchant, order, items[n - 1]);
    if j == n - 1 {
      ReserveItemHolds(before.tables, merchant, order, items[j]);
    } else {
      ReserveFirstHolds(t, merchant, order, items, n - 1, j);
      if items[n - 1].sku == items[j].sku {
        HeldLine(before.tables, merchant, order, items[n - 1], items[j].quantity);
        ReserveItemHolds(before.tables, merchant, order, items[n - 1]);
      } else {
        ReserveItemKeepsHeld(before.tables, merchant, order, items[n - 1], order, items[j].sku, items[j].quantity);
      }
    }
  }

  /** A line whose SKU is held is accepted for the held quantity only, and then moves no stock. */
  lemma HeldLine(t: Tables, merchant: string, order: string, item: Item, quantity: int)
    requires HeldFor(t.reservations, order, item.sku, quantity)
    ensures var r := ReserveItem(t, merchant, order, item);
      && (r.Reserved? <==> item.quantity == quantity)
      && (r.Reserved? ==> r.tables.rows == t.rows)
      && (r.Refused? ==> r.error == QuantityMismatch)
  {
  }

  // ------------------------------------------------------------ the loop is exact

  lemma {:induction false} ReserveFirstIsExact(t: Tables, merchant: string, order: string, items: seq<Item>, n: nat)
    requires n <= |items| && PositiveQuantities(items) && HoldsNothing(t.reservations, order)
    ensures var r := ReserveFirst(t, merchant, order, items, n);
      && (r.Reserved? <==> forall i :: 0 <= i < n ==> Servable(t, merchant, items, i))
      && (r.Reserved? ==> TakenFromBest(t, r.tables, merchant, items, n))
      && (r.Refused? ==> exists k :: 0 <= k < n && FirstFault(t, merchant, items, k) && r.error == Fault(items, k))
  {
    hide ReserveItem, SkuUntouched, IsHeld, HoldsNothing, TakenFromBest, Servable, Stocked, IsBest, BestRow, Fault;
    if n == 0 {
      NothingTaken(t, merchant, items);
    } else {
      ReserveFirstIsExact(t, merchant, order, items, n - 1);
      var before := ReserveFirst(t, merchant, order, items, n - 1);
      if before.Reserved? {
        LastLine(t, before.tables, merchant, order, items, n);
      }
    }
  }

  /** Line `k` is the first one that cannot be served. */
  ghost predicate FirstFault(t: Tables, merchant: string, items: seq<Item>, k: nat)
    requires k < |items|
  {
    !Servable(t, merchant, items, k) && forall i :: 0 <= i < k ==> Servable(t, merchant, items, i)
  }

  lemma NothingTaken(t: Tables, merchant: string, items: seq<Item>)
    ensures TakenFromBest(t, t, merchant, items, 0)
  {
  }

  lemma LastLine(t: Tables, t1: Tables, merchant: string, order: string, items: seq<Item>, n: nat)
    requires 0 < n <= |items| && items[n - 1].quantity > 0 && HoldsNothing(t.reservations, order)
    requires ReserveFirst(t, merchant, order, items, n - 1) == Reserved(t1)
    requires TakenFromBest(t, t1, merchant, items, n - 1)
    requires forall i :: 0 <= i < n - 1 ==> Servable(t, merchant, items, i)
    ensures var r := ReserveItem(t1, merchant, order, items[n - 1]);
      && (r.Reserved? <==> Servable(t, merchant, items, n - 1))
      && (r.Reserved? ==> TakenFromBest(t, r.tables, merchant, items, n))
      && (r.Refused? ==> r.error == Fault(items, n - 1))
  {
    hide ReserveItem, ReserveFirst, Pick, SkuUntouched, IsHeld, HoldsNothing, TakenFromBest, Stocked, BestRow;
    if Repeats(items, n - 1) {
      RepeatedLine(t, t1, merchant, order, items, n);
    } else {
      ReserveFirstLeavesSku(t, merchant, order, items, n - 1, items[n - 1].sku);
      NotHeld(t.reservations, order, items[n - 1].sku);
      LineSeesItsSku(t, t1, merchant, order, items[n - 1]);
      var r := ReserveItem(t1, merchant, order, items[n - 1]);
      if r.Reserved? {
        TakeExtends(t, t1, r.tables, merchant, items, n);
      }
    }
  }

  lemma RepeatedLine(t: Tables, t1: Tables, merchant: string, order: string, items: seq<Item>, n: nat)
    requires 0 < n <= |items| && Repeats(items, n - 1)
    requires ReserveFirst(t, merchant, order, items, n - 1) == Reserved(t1)
    requires TakenFromBest(t, t1, merchant, items, n - 1)
    requires forall i :: 0 <= i < n - 1 ==> Servable(t, merchant, items, i)
    ensures var r := ReserveItem(t1, merchant, order, items[n - 1]);
      && (r.Reserved? <==> Servable(t, merchant, items, n - 1))
      && (r.Reserved? ==> TakenFromBest(t, r.tables, merchant, items, n))
      && (r.Refused? ==> r.error == QuantityMismatch)
  {
    hide ReserveItem, ReserveFirst, HeldFor, TakenFromBest, Stocked;
    var last := items[n - 1];
    var j: nat :| j < n - 1 && items[j].sku == last.sku;
    assert Servable(t, merchant, items, j);
    ReserveFirstHolds(t, merchant, order, items, n - 1, j);
    HeldLine(t1, merchant, order, last, items[j].quantity);
    SameDemand(t, merchant, items[j], last);
    if items[j].quantity == last.quantity {
      SameQuantityExtends(t, merchant, items, j, n - 1);
      RepeatTakesNothing(t, t1, ReserveItem(t1, merchant, order, last).tables, merchant, items, j, n);
    }
  }

  /** The best row depends on SKU and quantity alone. */
  lemma SameDemand(t: Tables, merchant: string, a: Item, b: Item)
    ensures a.sku == b.sku && a.quantity == b.quantity ==>
      Stocked(t, merchant, a) == Stocked(t, merchant, b) && Pick(t, merchant, a) == Pick(t, merchant, b)
  {
    if a.sku == b.sku && a.quantity == b.quantity {
      SameBest(t, merchant, a, b, |t.rows|);
      assert Pick(t, merchant, a).Some? == Stocked(t, merchant, a) && Pick(t, merchant, b).Some? == Stocked(t, merchant, b);
    }
  }

  lemma {:induction false} SameBest(t: Tables, merchant: string, a: Item, b: Item, n: nat)
    requires a.sku == b.sku && a.quantity == b.quantity && n <= |t.rows|
    ensures BestRow(t, merchant, a, n) == BestRow(t, merchant, b, n)
  {
    if n > 0 {
      SameBest(t, merchant, a, b, n - 1);
    }
  }

  /** A line that agrees with an earlier one that agrees with all before it, agrees with all before it. */
  lemma SameQuantityExtends(t: Tables, merchant: string, items: seq<Item>, j: nat, k: nat)
    requires j < k < |items| && items[j].sku == items[k].sku && items[j].quantity == items[k].quantity
    requires forall i :: 0 <= i < k ==> Servable(t, merchant, items, i)
    ensures SameQuantity(items, k)
  {
    hide Stocked;
    forall i | 0 <= i < k && items[i].sku == items[k].sku
      ensures items[i].quantity == items[k].quantity
    {
      assert Servable(t, merchant, items, if i < j then j else i);
    }
  }

  lemma RepeatTakesNothing(t: Tables, t1: Tables, t2: Tables, merchant: string, items: seq<Item>, j: nat, n: nat)
    requires j < n - 1 < |items| && TakenFromBest(t, t1, merchant, items, n - 1) && t2.rows == t1.rows
    requires items[j].quantity == items[n - 1].quantity && Pick(t, merchant, items[j]) == Pick(t, merchant, items[n - 1])
    ensures TakenFromBest(t, t2, merchant, items, n)
  {
    hide Pick;
    forall i | 0 <= i < n
      ensures var pick := Pick(t, merchant, items[i]);
        pick.Some? && pick.value < |t.rows| && t2.rows[pick.value] == Taken(t.rows[pick.value], items[i].quantity)
    {
      assert Pick(t, merchant, items[if i < n - 1 then i else j]).Some?;
    }
  }

  lemma TakeExtends(t: Tables, t1: Tables, t2: Tables, merchant: string, items: seq<Item>, n: nat)
    requires 0 < n <= |items|
    requires TakenFromBest(t, t1, merchant, items, n - 1)
    requires Pick(t, merchant, items[n - 1]).Some?
    requires !Repeats(items, n - 1)
    requires var b := Pick(t, merchant, items[n - 1]).value;
      t1.rows[b] == t.rows[b] && t2.rows == t1.rows[b := Taken(t1.rows[b], items[n - 1].quantity)]
    ensures TakenFromBest(t, t2, merchant, items, n)
  {
    var b := Pick(t, merchant, items[n - 1]).value;
    forall i | 0 <= i < n - 1
      ensures Pick(t, merchant, items[i]) != Some(b)
    {
      assert items[i].sku != items[n - 1].sku;
    }
    forall j | 0 <= j < |t.rows| && t2.rows[j] != t.rows[j]
      ensures exists i :: 0 <= i < n && Pick(t, merchant, items[i]) == Some(j)
    {
      if j == b {
        assert Pick(t, merchant, items[n - 1]) == Some(j);
      } else {
        assert t1.rows[j] != t.rows[j];
      }
    }
  }

  /** Run with positive quantities on an order that holds nothing, the reservation succeeds iff every line
      fits one active warehouse of the merchant *beforehand* and lines with the same SKU ask for the same
      quantity. Then each line comes whole from the fullest such row, a repeated line only once, and no
      other row changes. Otherwise the first line that cannot be served decides: a quantity mismatch if it
      repeats a SKU, insufficient stock if not. */
  lemma ReservationIsExact(t: Tables, merchant: string, order: string, items: seq<Item>)
    requires PositiveQuantities(items) && HoldsNothing(t.reservations, order)
    ensures var r := ReserveAll(t, merchant, order, items);
      && (r.Reserved? <==> forall i :: 0 <= i < |items| ==> Servable(t, merchant, items, i))
      && (r.Reserved? ==> TakenFromBest(t, r.tables, merchant, items, |items|))
      && (r.Refused? ==> exists k :: 0 <= k < |items| && FirstFault(t, merchant, items, k) && r.error == Fault(items, k))
  {
    ReserveFirstIsExact(t, merchant, order, items, |items|);
  }

  /** For pairwise distinct SKUs, which validation and the uniqueness of (order, SKU) in order_items
      guarantee of every stored order, stock alone decides. */
  lemma DistinctLinesNeedStockOnly(t: Tables, merchant: string, order: string, items: seq<Item>)
    requires PositiveQuantities(items) && HoldsNothing(t.reservations, order)
    requires forall k :: 0 <= k < |items| ==> !Repeats(items, k)
    ensures var r := ReserveAll(t, merchant, order, items);
      && (r.Reserved? <==> forall i :: 0 <= i < |items| ==> Stocked(t, merchant, items[i]))
      && (r.Refused? ==> r.error == InsufficientStock)
  {
    ReservationIsExact(t, merchant, order, items);
    hide ReserveAll, Stocked;
    forall i | 0 <= i < |items|
      ensures Servable(t, merchant, items, i) == Stocked(t, merchant, items[i])
    {
      assert !Repeats(items, i);
    }
  }

  /** Stock alone does not decide for repeated SKUs: here both lines fit the only row beforehand, and the
      reservation is refused because they ask for different quantities. */
  lemma RepeatedSkuBreaksExactness()
    ensures
      var t := Tables(map["w" := Warehouse("m", true)], [StockRow("w", "a", 5, 0)], []);
      var items := [Item("a", 1, 0, ItemPending), Item("a", 2, 0, ItemPending)];
      && PositiveQuantities(items) && HoldsNothing(t.reservations, "o") && !SameQuantity(items, 1)
      && (forall i :: 0 <= i < |items| ==> Stocked(t, "m", items[i]))
      && ReserveAll(t, "m", "o", items) == Refused(QuantityMismatch)
  {
    var t := Tables(map["w" := Warehouse("m", true)], [StockRow("w", "a", 5, 0)], []);
    var items := [Item("a", 1, 0, ItemPending), Item("a", 2, 0, ItemPending)];
    hide ReserveAll, BestRow;
    assert items[0].sku == items[1].sku && Repeats(items, 1);
    assert Candidate(t, "m", items[0], 0) && Candidate(t, "m", items[1], 0);
    assert Servable(t, "m", items, 0) && !Servable(t, "m", items, 1);
    ReservationIsExact(t, "m", "o", items);
  }

  // ------------------------------------------------------------ release undoes reserve

  /** The stock held at (warehouse, sku) by every order but `order`. */
  function HeldByOthers(rs: seq<Reservation>, order: string, warehouse: string, sku: string): (h: int) {
    if |rs| == 0 then 0
    else
      var last := rs[|rs| - 1];
      HeldByOthers(rs[..|rs| - 1], order, warehouse, sku) + if last.order == order then 0 else Contribution(last, warehouse, sku)
  }

  lemma {:induction false} OwnUpdateIsInvisible(
    rs: seq<Reservation>, i: nat, r: Reservation, order: string, warehouse: string, sku: string)
    requires i < |rs| && rs[i].order == order && r.order == order
    ensures HeldByOthers(rs[i := r], order, warehouse, sku) == HeldByOthers(rs, order, warehouse, sku)
  {
    var n := |rs| - 1;
    if i == n {
      assert rs[i := r][..n] == rs[..n];
    } else {
      assert rs[i := r][..n] == rs[..n][i := r];
      OwnUpdateIsInvisible(rs[..n], i, r, order, warehouse, sku);
    }
  }

  lemma {:induction false} ReserveLeavesOthers(
    t: Tables, merchant: string, order: string, items: seq<Item>, n: nat, warehouse: string, sku: string)
    requires n <= |items| && ReserveFirst(t, merchant, order, items, n).Reserved?
    ensures HeldByOthers(ReserveFirst(t, merchant, order, items, n).tables.reservations, order, warehouse, sku)
         == HeldByOthers(t.reservations, order, warehouse, sku)
  {
    if n > 0 {
      ReserveLeavesOthers(t, merchant, order, items, n - 1, warehouse, sku);
      var before := ReserveFirst(t, merchant, order, items, n - 1);
      assert ReserveFirst(t, merchant, order, items, n) == ReserveItem(before.tables, merchant, order, items[n - 1]);
      hide ReserveFirst, ReserveItem;
      LineLeavesOthers(before.tables, merchant, order, items[n - 1], warehouse, sku);
    }
  }

  lemma LineLeavesOthers(t: Tables, merchant: string, order: string, item: Item, warehouse: string, sku: string)
    requires ReserveItem(t, merchant, order, item).Reserved?
    ensures HeldByOthers(ReserveItem(t, merchant, order, item).tables.reservations, order, warehouse, sku)
         == HeldByOthers(t.reservations, order, warehouse, sku)
  {
    hide BestRow;
    var rs' := ReserveItem(t, merchant, order, item).tables.reservations;
    match FindReservation(t.reservations, order, item.sku)
    case Some(i) => OwnUpdateIsInvisible(t.reservations, i, rs'[i], order, warehouse, sku);
    case None => assert rs' == t.reservations || rs'[..|t.reservations|] == t.reservations;
  }

  lemma {:induction false} AfterReleaseOnlyOthers(rs: seq<Reservation>, order: string, warehouse: string, sku: string)
    ensures HeldAt(ReleaseReservations(rs, order), warehouse, sku) == HeldByOthers(rs, order, warehouse, sku)
    ensures HoldsNothing(rs, order) ==> HeldAt(rs, warehouse, sku) == HeldByOthers(rs, order, warehouse, sku)
  {
    if |rs| > 0 {
      var n := |rs| - 1;
      assert ReleaseReservations(rs, order)[..n] == ReleaseReservations(rs[..n], order);
      AfterReleaseOnlyOthers(rs[..n], order, warehouse, sku);
    }
  }

  /** Releasing an order returns exactly what its reservation took, row by row, and leaves it holding
      nothing, so a second release changes nothing. */
  lemma ReleaseUndoesReserve(t: Tables, merchant: string, order: string, items: seq<Item>)
    requires StockOk(t) && HoldsNothing(t.reservations, order)
    requires ReserveAll(t, merchant, order, items).Reserved?
    ensures var t' := Release(ReserveAll(t, merchant, order, items).tables, order);
      t'.rows == t.rows && HoldsNothing(t'.reservations, order) && Release(t', order) == t'
  {
    var t1 := ReserveAll(t, merchant, order, items).tables;
    var t2 := Release(t1, order);
    ReserveFirstKeepsBooks(t, merchant, order, items, |items|);
    ReleaseKeepsBooks(t1, order);
    forall i | 0 <= i < |t.rows| ensures t2.rows[i] == t.rows[i] {
      ReserveLeavesOthers(t, merchant, order, items, |items|, t.rows[i].warehouse, t.rows[i].sku);
      AfterReleaseOnlyOthers(t1.reservations, order, t.rows[i].warehouse, t.rows[i].sku);
      AfterReleaseOnlyOthers(t.reservations, order, t.rows[i].warehouse, t.rows[i].sku);
    }
    ReleaseAgainIsIdle(t2, order);
  }

  lemma ReleaseAgainIsIdle(t: Tables, order: string)
    requires HoldsNothing(t.reservations, order)
    ensures Release(t, order) == t
  {
    var t' := Release(t, order);
    assert forall i :: 0 <= i < |t.rows| ==> t'.rows[i] == t.rows[i];
    assert t'.rows == t.rows;
    assert forall i :: 0 <= i < |t.reservations| ==> t'.reservations[i] == t.reservations[i];
    assert t'.reservations == t.reservations;
  }
}
