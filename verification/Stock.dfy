/** The relational stock tables and the statements that reserve and release them
    (internal/postgres/store.go: reserveInventoryItem, releaseInventoryItems, releaseReservedStock).
    A table is a sequence of rows; a stock row's id is its position. */
module Stock {
  import opened OrderModel

  datatype Warehouse = Warehouse(merchant: string, active: bool)

  /** inventory_items, unique by (warehouse, sku) */
  datatype StockRow = StockRow(warehouse: string, sku: string, available: int, reserved: int)

  /** stock_reservations, keyed by (order, sku); `held` is status 'reserved' */
  datatype Reservation = Reservation(order: string, sku: string, warehouse: Option<string>, quantity: int, held: bool)

  datatype Tables = Tables(warehouses: map<string, Warehouse>, rows: seq<StockRow>, reservations: seq<Reservation>)

  datatype StockError = InsufficientStock | QuantityMismatch | CheckViolation

  datatype Outcome = Reserved(tables: Tables) | Refused(error: StockError)

  // ------------------------------------------------------------ picking a row

  /** The rows the reservation query selects. */
  predicate Candidate(t: Tables, merchant: string, item: Item, i: nat)
    requires i < |t.rows|
    ensures Candidate(t, merchant, item, i) <==> Serves(t, t.rows[i], merchant, item)
  {
    var row := t.rows[i];
    && row.warehouse in t.warehouses
    && t.warehouses[row.warehouse].merchant == merchant
    && t.warehouses[row.warehouse].active
    && row.sku == item.sku
    && row.available >= item.quantity
  }

  /** The row has the whole line, in an active warehouse of the merchant. */
  ghost predicate Serves(t: Tables, row: StockRow, merchant: string, item: Item) {
    && row.sku == item.sku && item.quantity <= row.available
    && row.warehouse in t.warehouses && t.warehouses[row.warehouse] == Warehouse(merchant, true)
  }

  /** Some single active warehouse of the merchant can serve the whole line. */
  ghost predicate Stocked(t: Tables, merchant: string, item: Item) {
    exists i: nat :: i < |t.rows| && Serves(t, t.rows[i], merchant, item)
  }

  /** Row `i` heads the order "most available first, then lowest id" among the first `n` rows. */
  ghost predicate IsBest(t: Tables, merchant: string, item: Item, n: nat, i: nat)
    requires n <= |t.rows|
  {
    && i < n
    && Serves(t, t.rows[i], merchant, item)
    && forall j: nat :: j < n && Serves(t, t.rows[j], merchant, item) ==>
         t.rows[j].available < t.rows[i].available || (t.rows[j].available == t.rows[i].available && i <= j)
  }

  function BestRow(t: Tables, merchant: string, item: Item, n: nat): (r: Option<nat>)
    requires n <= |t.rows|
    ensures r.None? ==> forall j: nat :: j < n ==> !Serves(t, t.rows[j], merchant, item)
    ensures r.Some? ==> IsBest(t, merchant, item, n, r.value)
  {
    if n == 0 then None
    else
      var best := BestRow(t, merchant, item, n - 1);
      if Candidate(t, merchant, item, n - 1) && (best.None? || t.rows[best.value].available < t.rows[n - 1].available)
      then Some(n - 1)
      else best
  }

  // ------------------------------------------------------------ reservations by key

  predicate Matches(r: Reservation, order: string, sku: string) {
    r.order == order && r.sku == sku
  }

  function FindReservation(rs: seq<Reservation>, order: string, sku: string): (r: Option<nat>)
    ensures r.Some? ==> r.value < |rs| && Matches(rs[r.value], order, sku)
    ensures r.None? ==> forall i :: 0 <= i < |rs| ==> !Matches(rs[i], order, sku)
  {
    if |rs| == 0 then None
    else if Matches(rs[|rs| - 1], order, sku) then Some(|rs| - 1)
    else FindReservation(rs[..|rs| - 1], order, sku)
  }

  predicate IsHeld(rs: seq<Reservation>, order: string, sku: string) {
    var found := FindReservation(rs, order, sku);
    found.Some? && rs[found.value].held
  }

  function Upsert(rs: seq<Reservation>, order: string, item: Item, warehouse: Option<string>): (r: seq<Reservation>) {
    match FindReservation(rs, order, item.sku)
    case Some(i) =>
      rs[i := Reservation(order, item.sku, if warehouse.Some? then warehouse else rs[i].warehouse, item.quantity, true)]
    case None => rs + [Reservation(order, item.sku, warehouse, item.quantity, true)]
  }

  // ------------------------------------------------------------ reserve

  function TakeFromRow(t: Tables, order: string, item: Item, i: nat): (r: Tables)
    requires i < |t.rows|
  {
    var row := t.rows[i];
    t.(rows := t.rows[i := row.(available := row.available - item.quantity, reserved := row.reserved + item.quantity)],
       reservations := Upsert(t.reservations, order, item, Some(row.warehouse)))
  }

  /** One line. A line that is already held keeps its row; the CHECK (quantity > 0) refuses the rest. */
  function ReserveItem(t: Tables, merchant: string, order: string, item: Item): (r: Outcome) {
    if IsHeld(t.reservations, order, item.sku) then
      var i := FindReservation(t.reservations, order, item.sku).value;
      if t.reservations[i].quantity != item.quantity then Refused(QuantityMismatch)
      else Reserved(t.(reservations := Upsert(t.reservations, order, item, t.reservations[i].warehouse)))
    else
      match BestRow(t, merchant, item, |t.rows|)
      case None => Refused(InsufficientStock)
      case Some(i) =>
        if item.quantity <= 0 then Refused(CheckViolation) else Reserved(TakeFromRow(t, order, item, i))
  }

  /** The first `n` lines in order; the whole transaction is rolled back at the first refusal. */
  function ReserveFirst(t: Tables, merchant: string, order: string, items: seq<Item>, n: nat): (r: Outcome)
    requires n <= |items|
  {
    if n == 0 then Reserved(t)
    else
      var before := ReserveFirst(t, merchant, order, items, n - 1);
      if before.Refused? then before else ReserveItem(before.tables, merchant, order, items[n - 1])
  }

  function ReserveAll(t: Tables, merchant: string, order: string, items: seq<Item>): (r: Outcome) {
    ReserveFirst(t, merchant, order, items, |items|)
  }

  // ------------------------------------------------------------ release

  /** What the release join finds for `order` at (warehouse, sku). */
  function Owed(rs: seq<Reservation>, order: string, warehouse: string, sku: string): (r: int) {
    var found := FindReservation(rs, order, sku);
    if found.Some? && rs[found.value].held && rs[found.value].warehouse == Some(warehouse)
    then rs[found.value].quantity else 0
  }

  function Greatest(a: int, b: int): (r: int) {
    if a < b then b else a
  }

  function ReleaseRow(row: StockRow, rs: seq<Reservation>, order: string): (r: StockRow) {
    var owed := Owed(rs, order, row.warehouse, row.sku);
    if owed == 0 then row
    else row.(available := row.available + owed, reserved := Greatest(row.reserved - owed, 0))
  }

  function ReleaseReservation(r: Reservation, order: string): (r': Reservation) {
    if r.order == order then r.(held := false) else r
  }

  function ReleaseReservations(rs: seq<Reservation>, order: string): (r: seq<Reservation>)
    ensures |r| == |rs|
  {
    seq(|rs|, i requires 0 <= i < |rs| => ReleaseReservation(rs[i], order))
  }

  function Release(t: Tables, order: string): (r: Tables) {
    t.(rows := seq(|t.rows|, i requires 0 <= i < |t.rows| => ReleaseRow(t.rows[i], t.reservations, order)),
       reservations := ReleaseReservations(t.reservations, order))
  }

  // ------------------------------------------------------------ what the tables must say

  function Contribution(r: Reservation, warehouse: string, sku: string): (c: int) {
    if r.held && r.warehouse == Some(warehouse) && r.sku == sku then r.quantity else 0
  }

  /** Sum of the held reservation rows at (warehouse, sku). */
  function HeldAt(rs: seq<Reservation>, warehouse: string, sku: string): (h: int) {
    if |rs| == 0 then 0
    else HeldAt(rs[..|rs| - 1], warehouse, sku) + Contribution(rs[|rs| - 1], warehouse, sku)
  }

  ghost predicate UniqueRows(rows: seq<StockRow>) {
    forall i, j :: 0 <= i < j < |rows| ==> rows[i].warehouse != rows[j].warehouse || rows[i].sku != rows[j].sku
  }

  ghost predicate UniqueReservations(rs: seq<Reservation>) {
    forall i, j :: 0 <= i < j < |rs| ==> !Matches(rs[i], rs[j].order, rs[j].sku)
  }

  ghost predicate HasRow(rows: seq<StockRow>, warehouse: string, sku: string) {
    exists i :: 0 <= i < |rows| && rows[i].warehouse == warehouse && rows[i].sku == sku
  }

  ghost predicate Backed(r: Reservation, rows: seq<StockRow>) {
    r.held ==> r.quantity > 0 && r.warehouse.Some? && HasRow(rows, r.warehouse.value, r.sku)
  }

  /** The books balance: stock is never negative and every row's reserved count is exactly the
      reservations held there. */
  ghost predicate StockOk(t: Tables) {
    && UniqueRows(t.rows)
    && UniqueReservations(t.reservations)
    && (forall i :: 0 <= i < |t.rows| ==>
          && t.rows[i].available >= 0
          && t.rows[i].reserved == HeldAt(t.reservations, t.rows[i].warehouse, t.rows[i].sku))
    && forall i :: 0 <= i < |t.reservations| ==> Backed(t.reservations[i], t.rows)
  }

  /** Same rows, and on each of them available + reserved is what it was. */
  ghost predicate SameTotals(a: Tables, b: Tables) {
    && a.warehouses == b.warehouses
    && |a.rows| == |b.rows|
    && forall i :: 0 <= i < |a.rows| ==>
         && a.rows[i].warehouse == b.rows[i].warehouse
         && a.rows[i].sku == b.rows[i].sku
         && a.rows[i].available + a.rows[i].reserved == b.rows[i].available + b.rows[i].reserved
  }

  lemma {:induction false} HeldAtUpdate(rs: seq<Reservation>, i: nat, r: Reservation, warehouse: string, sku: string)
    requires i < |rs|
    ensures HeldAt(rs[i := r], warehouse, sku)
         == HeldAt(rs, warehouse, sku) - Contribution(rs[i], warehouse, sku) + Contribution(r, warehouse, sku)
  {
    var n := |rs| - 1;
    if i == n {
      assert rs[i := r][..n] == rs[..n];
    } else {
      assert rs[i := r][..n] == rs[..n][i := r];
      HeldAtUpdate(rs[..n], i, r, warehouse, sku);
    }
  }

  lemma {:induction false} HeldAtNonNegative(rs: seq<Reservation>, warehouse: string, sku: string)
    requires forall i :: 0 <= i < |rs| && rs[i].held ==> rs[i].quantity > 0
    ensures HeldAt(rs, warehouse, sku) >= 0
  {
    if |rs| > 0 {
      HeldAtNonNegative(rs[..|rs| - 1], warehouse, sku);
    }
  }

  lemma {:induction false} ReleasedSum(rs: seq<Reservation>, order: string, warehouse: string, sku: string)
    requires UniqueReservations(rs)
    ensures HeldAt(ReleaseReservations(rs, order), warehouse, sku)
         == HeldAt(rs, warehouse, sku) - Owed(rs, order, warehouse, sku)
  {
    if |rs| > 0 {
      var n := |rs| - 1;
      assert ReleaseReservations(rs, order)[..n] == ReleaseReservations(rs[..n], order);
      ReleasedSum(rs[..n], order, warehouse, sku);
    }
  }

  /** Holding a line that was not held adds exactly its quantity, at its own row. */
  lemma UpsertSum(rs: seq<Reservation>, order: string, item: Item, taken: string, warehouse: string, sku: string)
    requires !IsHeld(rs, order, item.sku)
    ensures HeldAt(Upsert(rs, order, item, Some(taken)), warehouse, sku)
         == HeldAt(rs, warehouse, sku) + if taken == warehouse && item.sku == sku then item.quantity else 0
  {
    var added := Reservation(order, item.sku, Some(taken), item.quantity, true);
    match FindReservation(rs, order, item.sku)
    case Some(i) => HeldAtUpdate(rs, i, added, warehouse, sku);
    case None => assert (rs + [added])[..|rs|] == rs;
  }

  lemma UpsertKeepsKeys(rs: seq<Reservation>, order: string, item: Item, taken: Option<string>)
    requires UniqueReservations(rs)
    ensures UniqueReservations(Upsert(rs, order, item, taken))
  {
    var rs' := Upsert(rs, order, item, taken);
    forall i, j | 0 <= i < j < |rs'| ensures !Matches(rs'[i], rs'[j].order, rs'[j].sku) {
      if j < |rs| {
        assert !Matches(rs[i], rs[j].order, rs[j].sku);
      }
    }
  }

  lemma BackedElsewhere(r: Reservation, rows: seq<StockRow>, rows': seq<StockRow>)
    requires Backed(r, rows) && |rows| == |rows'|
    requires forall i :: 0 <= i < |rows| ==> rows[i].warehouse == rows'[i].warehouse && rows[i].sku == rows'[i].sku
    ensures Backed(r, rows')
  {
    if r.held {
      var j :| 0 <= j < |rows| && rows[j].warehouse == r.warehouse.value && rows[j].sku == r.sku;
      assert rows'[j].warehouse == r.warehouse.value && rows'[j].sku == r.sku;
    }
  }

  lemma TakeFromRowKeepsBooks(t: Tables, order: string, item: Item, b: nat)
    requires StockOk(t) && !IsHeld(t.reservations, order, item.sku)
    requires b < |t.rows| && t.rows[b].sku == item.sku && 0 < item.quantity <= t.rows[b].available
    ensures StockOk(TakeFromRow(t, order, item, b)) && SameTotals(t, TakeFromRow(t, order, item, b))
  {
    hide HeldAt, UniqueReservations, Backed, IsHeld, Upsert;
    var t' := TakeFromRow(t, order, item, b);
    UpsertKeepsKeys(t.reservations, order, item, Some(t.rows[b].warehouse));
    UpsertIsBacked(t, order, item, b);
    forall i | 0 <= i < |t'.rows|
      ensures t'.rows[i].reserved == HeldAt(t'.reservations, t'.rows[i].warehouse, t'.rows[i].sku)
    {
      UpsertSum(t.reservations, order, item, t.rows[b].warehouse, t.rows[i].warehouse, t.rows[i].sku);
    }
  }

  lemma UpsertIsBacked(t: Tables, order: string, item: Item, b: nat)
    requires b < |t.rows| && t.rows[b].sku == item.sku && 0 < item.quantity
    requires forall i :: 0 <= i < |t.reservations| ==> Backed(t.reservations[i], t.rows)
    ensures var t' := TakeFromRow(t, order, item, b);
      forall i :: 0 <= i < |t'.reservations| ==> Backed(t'.reservations[i], t'.rows)
  {
    var t' := TakeFromRow(t, order, item, b);
    forall i | 0 <= i < |t'.reservations| ensures Backed(t'.reservations[i], t'.rows) {
      if i < |t.reservations| && t'.reservations[i] == t.reservations[i] {
        BackedElsewhere(t.reservations[i], t.rows, t'.rows);
      } else {
        assert t'.rows[b].warehouse == t.rows[b].warehouse && t'.rows[b].sku == item.sku;
      }
    }
  }

  /** Reserving one line keeps the books balanced and moves stock only from available to reserved. */
  lemma ReserveItemKeepsBooks(t: Tables, merchant: string, order: string, item: Item)
    requires StockOk(t) && ReserveItem(t, merchant, order, item).Reserved?
    ensures var t' := ReserveItem(t, merchant, order, item).tables; StockOk(t') && SameTotals(t, t')
  {
    if IsHeld(t.reservations, order, item.sku) {
      assert ReserveItem(t, merchant, order, item).tables.reservations == t.reservations;
    } else {
      TakeFromRowKeepsBooks(t, order, item, BestRow(t, merchant, item, |t.rows|).value);
    }
  }

  lemma {:induction false} ReserveFirstKeepsBooks(t: Tables, merchant: string, order: string, items: seq<Item>, n: nat)
    requires StockOk(t) && n <= |items| && ReserveFirst(t, merchant, order, items, n).Reserved?
    ensures var t' := ReserveFirst(t, merchant, order, items, n).tables; StockOk(t') && SameTotals(t, t')
  {
    if n > 0 {
      ReserveFirstKeepsBooks(t, merchant, order, items, n - 1);
      ReserveItemKeepsBooks(ReserveFirst(t, merchant, order, items, n - 1).tables, merchant, order, items[n - 1]);
    }
  }

  /** Releasing keeps the books balanced; the GREATEST(..., 0) clamp never binds. */
  lemma ReleaseKeepsBooks(t: Tables, order: string)
    requires StockOk(t)
    ensures StockOk(Release(t, order)) && SameTotals(t, Release(t, order))
    ensures forall i :: 0 <= i < |t.rows| ==>
              t.rows[i].reserved - Owed(t.reservations, order, t.rows[i].warehouse, t.rows[i].sku) >= 0
  {
    var t' := Release(t, order);
    forall i | 0 <= i < |t.rows|
      ensures t.rows[i].reserved - Owed(t.reservations, order, t.rows[i].warehouse, t.rows[i].sku)
           == HeldAt(t'.reservations, t.rows[i].warehouse, t.rows[i].sku) >= 0
      ensures Owed(t.reservations, order, t.rows[i].warehouse, t.rows[i].sku) >= 0
    {
      assert forall j :: 0 <= j < |t.reservations| ==> Backed(t.reservations[j], t.rows);
      ReleasedSum(t.reservations, order, t.rows[i].warehouse, t.rows[i].sku);
      HeldAtNonNegative(t'.reservations, t.rows[i].warehouse, t.rows[i].sku);
    }
    forall i | 0 <= i < |t'.reservations| ensures Backed(t'.reservations[i], t'.rows) {
      assert Backed(t.reservations[i], t.rows);
      BackedElsewhere(t'.reservations[i], t.rows, t'.rows);
    }
  }

  // ------------------------------------------------------------ whole runs

  datatype StockOp = ReserveOp(merchant: string, order: string, items: seq<Item>) | ReleaseOp(order: string)

  function ApplyOp(t: Tables, op: StockOp): (r: Tables) {
    match op
    case ReserveOp(merchant, order, items) =>
      var outcome := ReserveAll(t, merchant, order, items);
      if outcome.Reserved? then outcome.tables else t
    case ReleaseOp(order) => Release(t, order)
  }

  function RunOps(t: Tables, ops: seq<StockOp>): (r: Tables) {
    if |ops| == 0 then t else ApplyOp(RunOps(t, ops[..|ops| - 1]), ops[|ops| - 1])
  }

  ghost predicate Unreserved(t: Tables) {
    && UniqueRows(t.rows)
    && t.reservations == []
    && forall i :: 0 <= i < |t.rows| ==> t.rows[i].available >= 0 && t.rows[i].reserved == 0
  }

  /** Over any run from unreserved tables, however reserve and release repeat and whatever is
      refused: on every row available + reserved is what it was at the start, neither is negative,
      and reserved is the sum of the reservations held there. */
  lemma {:induction false} StockIsConserved(t: Tables, ops: seq<StockOp>)
    requires Unreserved(t)
    ensures var t' := RunOps(t, ops);
      && StockOk(t') && SameTotals(t, t')
      && forall i :: 0 <= i < |t'.rows| ==> 0 <= t'.rows[i].reserved && 0 <= t'.rows[i].available <= t.rows[i].available
  {
    if |ops| == 0 {
      assert RunOps(t, ops) == t;
    } else {
      var before := RunOps(t, ops[..|ops| - 1]);
      StockIsConserved(t, ops[..|ops| - 1]);
      match ops[|ops| - 1]
      case ReserveOp(merchant, order, items) =>
        if ReserveAll(before, merchant, order, items).Reserved? {
          ReserveFirstKeepsBooks(before, merchant, order, items, |items|);
        }
      case ReleaseOp(order) => ReleaseKeepsBooks(before, order);
    }
    var t' := RunOps(t, ops);
    forall i | 0 <= i < |t'.rows| ensures 0 <= t'.rows[i].reserved {
      assert forall j :: 0 <= j < |t'.reservations| ==> Backed(t'.reservations[j], t'.rows);
      HeldAtNonNegative(t'.reservations, t'.rows[i].warehouse, t'.rows[i].sku);
    }
  }
}
