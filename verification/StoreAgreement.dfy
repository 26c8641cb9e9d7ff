/** The in-memory store and the relational one answer alike (internal/commerce/store.go and
    internal/postgres/store.go), and when the two ways of scoping a key by merchant agree. */
module StoreAgreement {
  import opened OrderModel
  import opened Stock
  import opened StockLaws
  import opened OrderStore

  // ------------------------------------------------------------ scoped keys

  /** Some key of one merchant is also a key of the other. */
  ghost predicate Collide(m1: string, m2: string) {
    exists t1, t2 :: ScopedKey(m1, t1) == ScopedKey(m2, t2)
  }

  lemma KeysSplit(m1: string, t1: string, m2: string, t2: string)
    requires ScopedKey(m1, t1) == ScopedKey(m2, t2) && |m1| <= |m2|
    ensures if |m1| == |m2| then m1 == m2 && t1 == t2 else m1 + ":" <= m2 && ':' in m2
  {
    var k := ScopedKey(m1, t1);
    assert k[..|m1|] == m1 && k[..|m2|] == m2;
    assert k[|m1|] == ':' && k[|m2|] == ':';
    assert k[|m1| + 1..] == t1 && k[|m2| + 1..] == t2;
    if |m1| < |m2| {
      assert m2[|m1|] == ':';
      assert (m1 + ":")[..|m1|] == m2[..|m1|];
    }
  }

  /** Every key of the second merchant is also a key of the first. */
  ghost predicate Covers(m1: string, m2: string) {
    forall t2: string :: IsKeyOf(m1, ScopedKey(m2, t2))
  }

  ghost predicate IsKeyOf(m: string, key: string) {
    exists t :: ScopedKey(m, t) == key
  }

  lemma LongerIsCovered(m1: string, m2: string)
    requires m1 + ":" <= m2
    ensures Covers(m1, m2)
  {
    forall t2: string ensures IsKeyOf(m1, ScopedKey(m2, t2)) {
      var rest := m2[|m1| + 1..];
      assert m2 == m1 + ":" + rest;
      assert ScopedKey(m1, rest + ":" + t2) == ScopedKey(m2, t2);
    }
  }

  /** Two merchants' keys meet iff one ID is the other one followed by a colon and more; then every key of
      the longer one, whatever its text, is a key of the shorter one too. */
  lemma KeysCollideExactlyWhen(m1: string, m2: string)
    requires m1 != m2
    ensures Collide(m1, m2) <==> m1 + ":" <= m2 || m2 + ":" <= m1
    ensures m1 + ":" <= m2 ==> Covers(m1, m2)
    ensures m2 + ":" <= m1 ==> Covers(m2, m1)
  {
    if m1 + ":" <= m2 {
      LongerIsCovered(m1, m2);
    }
    if m2 + ":" <= m1 {
      LongerIsCovered(m2, m1);
    }
    if Collide(m1, m2) {
      var t1, t2 :| ScopedKey(m1, t1) == ScopedKey(m2, t2);
      if |m1| <= |m2| {
        KeysSplit(m1, t1, m2, t2);
      } else {
        KeysSplit(m2, t2, m1, t1);
      }
    }
    if m1 + ":" <= m2 {
      assert ScopedKey(m1, m2[|m1| + 1..] + ":") == ScopedKey(m2, "");
    }
    if m2 + ":" <= m1 {
      assert ScopedKey(m2, m1[|m2| + 1..] + ":") == ScopedKey(m1, "");
    }
  }

  predicate Plain(merchant: string) {
    ':' !in merchant
  }

  lemma PlainKeysAreDistinct(m1: string, t1: string, m2: string, t2: string)
    requires Plain(m1) && Plain(m2) && ScopedKey(m1, t1) == ScopedKey(m2, t2)
    ensures m1 == m2 && t1 == t2
  {
    if |m1| <= |m2| {
      KeysSplit(m1, t1, m2, t2);
    } else {
      KeysSplit(m2, t2, m1, t1);
    }
  }

  // ------------------------------------------------------------ calls and replies

  datatype Call =
    | Insert(merchant: string, idempotencyKey: string, draft: Order, event: Event, audit: AuditLog)
    | UpdateStatus(id: string, status: OrderStatus, event: Event, audit: AuditLog)
    | Reserved(source: Event, event: Event, audit: AuditLog)
    | Rejected(source: Event, event: Event, audit: AuditLog)
    | Authorize(source: Event, event: Event, payment: Payment, audit: AuditLog)
    | FailPayment(source: Event, event: Event, audit: AuditLog)
    | Ship(source: Event, event: Event, shipment: Shipment, audit: AuditLog)
    | FailShipment(source: Event, event: Event, audit: AuditLog)
    | Cancel(source: Event, event: Event, audit: AuditLog)
    | Notify(source: Event, audit: AuditLog)
    | Compensate(source: Event, status: OrderStatus, audit: AuditLog)

  /** What a caller sees: which order, whether it was a replay, or which error. */
  datatype Reply = Accepted | Created(id: string, replayed: bool) | Refusal(error: StoreError)

  function ReplyOf<T>(r: Result<T>): (reply: Reply) {
    match r case Ok(_) => Accepted case Err(e) => Refusal(e)
  }

  function CreateReply(r: Result<(Order, bool)>): (reply: Reply) {
    match r case Ok(v) => Created(v.0.id, v.1) case Err(e) => Refusal(e)
  }

  function Apply(s: Store, c: Call): (r: (Store, Reply)) {
    match c
    case Insert(m, k, draft, event, audit) => var r := InsertOrder(s, m, k, draft, event, audit); (r.0, CreateReply(r.1))
    case UpdateStatus(id, status, event, audit) => var r := UpdateOrderStatus(s, id, status, event, audit); (r.0, ReplyOf(r.1))
    case Reserved(source, event, audit) => var r := RecordInventoryReserved(s, source, event, audit); (r.0, ReplyOf(r.1))
    case Rejected(source, event, audit) => var r := RecordInventoryRejected(s, source, event, audit); (r.0, ReplyOf(r.1))
    case Authorize(source, event, payment, audit) => var r := RecordPaymentAuthorized(s, source, event, payment, audit); (r.0, ReplyOf(r.1))
    case FailPayment(source, event, audit) => var r := RecordPaymentFailed(s, source, event, audit); (r.0, ReplyOf(r.1))
    case Ship(source, event, shipment, audit) => var r := RecordShipmentCreated(s, source, event, shipment, audit); (r.0, ReplyOf(r.1))
    case FailShipment(source, event, audit) => var r := RecordShipmentFailed(s, source, event, audit); (r.0, ReplyOf(r.1))
    case Cancel(source, event, audit) => var r := RecordOrderCancelled(s, source, event, audit); (r.0, ReplyOf(r.1))
    case Notify(source, audit) => var r := RecordNotificationQueued(s, source, audit); (r.0, ReplyOf(r.1))
    case Compensate(source, status, audit) => var r := RecordCompensation(s, source, status, audit); (r.0, ReplyOf(r.1))
  }

  /** Replies only the relational store gives: no stock, or a table constraint. */
  predicate StockOrConstraint(reply: Reply) {
    reply.Refusal? && (reply.error == NoStock || reply.error == ReservationMismatch || reply.error == ConstraintViolation)
  }

  /** What validation, the service and fresh IDs guarantee of a call. */
  ghost predicate Sane(s: Store, c: Call) {
    c.Insert? ==>
      && Plain(c.merchant) && c.draft.items != [] && c.draft.id !in s.orders
      && c.draft.merchant == c.merchant && c.draft.shipment.None?
  }

  /** A call asks for what the tables cannot hold: a row the order_items table refuses, stock that is not
      there, or a negative authorized amount. */
  ghost predicate Beyond(s: Store, c: Call) {
    match c
    case Insert(m, k, draft, _, _) =>
      KeyFor(s, m, k) !in s.byIdempotency && KeyFor(s, m, draft.external) !in s.byExternal && Unstorable(draft.items)
    case Reserved(source, _, _) =>
      && source.order in s.orders && s.stock.Some?
      && CanTransitionOrderStatus(s.orders[source.order].status, StatusInventoryReserved)
      && ReserveAll(s.stock.value, source.merchant, source.order, s.orders[source.order].items).Refused?
    case Authorize(source, _, _, _) =>
      && source.order in s.orders
      && CanTransitionOrderStatus(s.orders[source.order].status, StatusPaymentAuthorized)
      && s.orders[source.order].totals.total < 0
    case _ => false
  }

  // ------------------------------------------------------------ agreement

  function PaymentStatusOf(order: Order): (p: Option<PaymentStatus>) {
    if order.payment.None? then None else Some(order.payment.value.status)
  }

  /** Equal but for the payment provider and the shipment record. */
  ghost predicate OrdersAgree(a: Order, b: Order) {
    && a.id == b.id && a.merchant == b.merchant && a.external == b.external && a.currency == b.currency
    && a.status == b.status && a.totals == b.totals && a.items == b.items
    && PaymentStatusOf(a) == PaymentStatusOf(b)
  }

  ghost predicate IndexesAgree(scoped: map<IndexKey, string>, columns: map<IndexKey, string>) {
    forall m, t :: Plain(m) ==>
      && (Scoped(ScopedKey(m, t)) in scoped <==> Columns(m, t) in columns)
      && (Columns(m, t) in columns && Scoped(ScopedKey(m, t)) in scoped ==> scoped[Scoped(ScopedKey(m, t))] == columns[Columns(m, t)])
  }

  /** The in-memory store `a` and the relational store `b` hold the same orders, indexes, events and
      audit rows. */
  ghost predicate Agree(a: Store, b: Store) {
    && a.stock.None? && b.stock.Some?
    && a.orders.Keys == b.orders.Keys
    && (forall id :: id in a.orders ==> OrdersAgree(a.orders[id], b.orders[id]) && a.orders[id].items != [])
    && a.outbox == b.outbox && a.audits == b.audits
    && IndexesAgree(a.byExternal, b.byExternal) && IndexesAgree(a.byIdempotency, b.byIdempotency)
  }

  lemma IndexInsert(scoped: map<IndexKey, string>, columns: map<IndexKey, string>, m: string, t: string, id: string)
    requires Plain(m) && IndexesAgree(scoped, columns)
    ensures IndexesAgree(scoped[Scoped(ScopedKey(m, t)) := id], columns[Columns(m, t) := id])
  {
    var scoped', columns' := scoped[Scoped(ScopedKey(m, t)) := id], columns[Columns(m, t) := id];
    forall m2, t2 | Plain(m2)
      ensures Scoped(ScopedKey(m2, t2)) in scoped' <==> Columns(m2, t2) in columns'
      ensures Columns(m2, t2) in columns' && Scoped(ScopedKey(m2, t2)) in scoped' ==>
        scoped'[Scoped(ScopedKey(m2, t2))] == columns'[Columns(m2, t2)]
    {
      if ScopedKey(m2, t2) == ScopedKey(m, t) {
        PlainKeysAreDistinct(m2, t2, m, t);
      }
    }
  }

  lemma InsertAgrees(a: Store, b: Store, c: Call)
    requires Agree(a, b) && c.Insert? && Sane(a, c) && !StockOrConstraint(Apply(b, c).1)
    ensures Apply(a, c).1 == Apply(b, c).1 && Agree(Apply(a, c).0, Apply(b, c).0)
  {
    hide RowsAccepted;
    var kI, kE := Columns(c.merchant, c.idempotencyKey), Columns(c.merchant, c.draft.external);
    assert Scoped(ScopedKey(c.merchant, c.idempotencyKey)) in a.byIdempotency <==> kI in b.byIdempotency;
    assert Scoped(ScopedKey(c.merchant, c.draft.external)) in a.byExternal <==> kE in b.byExternal;
    IndexInsert(a.byIdempotency, b.byIdempotency, c.merchant, c.idempotencyKey, c.draft.id);
    IndexInsert(a.byExternal, b.byExternal, c.merchant, c.draft.external, c.draft.id);
  }

  /** Writing agreeing orders to agreeing stores, whatever happens to the stock tables. */
  lemma PutAgrees(a: Store, b: Store, id: string, x: Order, y: Order, events: seq<Event>, audit: AuditLog, stock: Option<Tables>)
    requires Agree(a, b) && id in a.orders && OrdersAgree(x, y) && x.items != [] && stock.Some?
    ensures Agree(Put(a, id, x, events, audit), Put(b.(stock := stock), id, y, events, audit))
  {
    hide IndexesAgree;
  }

  lemma StatusAgrees(a: Store, b: Store, c: Call)
    requires Agree(a, b) && (c.UpdateStatus? || c.Notify?)
    ensures Apply(a, c).1 == Apply(b, c).1 && Agree(Apply(a, c).0, Apply(b, c).0)
  {
    hide Agree;
    var id := if c.UpdateStatus? then c.id else c.source.order;
    AgreeOn(a, b, id);
    if id in a.orders {
      PutAgrees(a, b, id, a.orders[id], b.orders[id], [], c.audit, b.stock);
      if c.UpdateStatus? {
        PutAgrees(a, b, id, a.orders[id].(status := c.status), b.orders[id].(status := c.status), [c.event], c.audit, b.stock);
      } else {
        assert a.orders[id := a.orders[id]] == a.orders && b.orders[id := b.orders[id]] == b.orders;
        assert a.outbox + [] == a.outbox && b.outbox + [] == b.outbox;
      }
    }
  }

  /** Each projection writes one order and one event. */
  lemma RecordAgrees(a: Store, b: Store, c: Call)
    requires Agree(a, b) && !StockOrConstraint(Apply(b, c).1)
    requires c.Reserved? || c.Rejected? || c.Authorize? || c.FailPayment? || c.Ship? || c.FailShipment?
    ensures Apply(a, c).1 == Apply(b, c).1 && Agree(Apply(a, c).0, Apply(b, c).0)
  {
    hide ReserveAll, Agree;
    var id := c.source.order;
    AgreeOn(a, b, id);
    var (a', r) := Apply(a, c);
    var b' := Apply(b, c).0;
    if r.Accepted? {
      PutAgrees(a, b, id, a'.orders[id], b'.orders[id], [a'.outbox[|a.outbox|]], c.audit, b'.stock);
    }
  }

  lemma ReleaseAgrees(a: Store, b: Store, c: Call)
    requires Agree(a, b) && (c.Cancel? || c.Compensate?)
    ensures Apply(a, c).1 == Apply(b, c).1 && Agree(Apply(a, c).0, Apply(b, c).0)
  {
    hide Release, Agree;
    AgreeOn(a, b, c.source.order);
    var (a', r) := Apply(a, c);
    var b' := Apply(b, c).0;
    if r.Accepted? {
      var id := c.source.order;
      PutAgrees(a, b, id, a'.orders[id], b'.orders[id], if c.Cancel? then [c.event] else [], c.audit, b'.stock);
    }
  }

  lemma AgreeOn(a: Store, b: Store, id: string)
    requires Agree(a, b)
    ensures a.stock.None? && b.stock.Some? && (id in a.orders <==> id in b.orders)
    ensures id in a.orders ==> OrdersAgree(a.orders[id], b.orders[id]) && a.orders[id].items != []
  {
  }

  function ApplyAll(s: Store, calls: seq<Call>): (r: Store) {
    if |calls| == 0 then s else Apply(ApplyAll(s, calls[..|calls| - 1]), calls[|calls| - 1]).0
  }

  /** The reply to the call after `calls`. */
  function ReplyAfter(s: Store, calls: seq<Call>, c: Call): (reply: Reply) {
    Apply(ApplyAll(s, calls), c).1
  }

  ghost predicate SaneRun(b: Store, calls: seq<Call>) {
    forall n :: 0 <= n < |calls| ==>
      Sane(ApplyAll(b, calls[..n]), calls[n]) && !StockOrConstraint(ReplyAfter(b, calls[..n], calls[n]))
  }

  lemma {:induction false} RunsAgree(a: Store, b: Store, calls: seq<Call>)
    requires Agree(a, b) && SaneRun(b, calls)
    ensures Agree(ApplyAll(a, calls), ApplyAll(b, calls))
    ensures forall n :: 0 <= n < |calls| ==> ReplyAfter(a, calls[..n], calls[n]) == ReplyAfter(b, calls[..n], calls[n])
  {
    hide Agree, Apply, StockOrConstraint;
    if |calls| > 0 {
      var k := |calls| - 1;
      var front := calls[..k];
      assert forall n :: 0 <= n < k ==> front[..n] == calls[..n];
      RunsAgree(a, b, front);
      var a1, b1, c := ApplyAll(a, front), ApplyAll(b, front), calls[k];
      assert Sane(b1, c);
      assert !StockOrConstraint(ReplyAfter(b, calls[..k], c));
      CallAgrees(a1, b1, c);
    }
  }

  lemma CallAgrees(a: Store, b: Store, c: Call)
    requires Agree(a, b) && Sane(b, c) && !StockOrConstraint(Apply(b, c).1)
    ensures Apply(a, c).1 == Apply(b, c).1 && Agree(Apply(a, c).0, Apply(b, c).0)
  {
    hide Apply, IndexesAgree;
    if c.Insert? {
      InsertAgrees(a, b, c);
    } else if c.Cancel? || c.Compensate? {
      ReleaseAgrees(a, b, c);
    } else if c.UpdateStatus? || c.Notify? {
      StatusAgrees(a, b, c);
    } else {
      RecordAgrees(a, b, c);
    }
  }

  /** The relational store alone refuses a call, and only what its tables cannot hold. */
  lemma RelationalRefusesExactlyWhen(a: Store, b: Store, c: Call)
    requires Agree(a, b) && Sane(b, c)
    ensures StockOrConstraint(Apply(b, c).1) <==> Beyond(b, c)
    ensures Apply(a, c).1 == Apply(b, c).1 <==> !Beyond(b, c)
  {
    OnlyTablesRefuse(b, c, true);
    OnlyTablesRefuse(a, c, false);
    hide Apply, Agree, Beyond, StockOrConstraint;
    if !Beyond(b, c) {
      CallAgrees(a, b, c);
    }
  }

  lemma OnlyTablesRefuse(s: Store, c: Call, relational: bool)
    requires s.stock.Some? == relational
    requires relational ==> Sane(s, c) && forall id :: id in s.orders ==> s.orders[id].items != []
    ensures StockOrConstraint(Apply(s, c).1) <==> relational && Beyond(s, c)
  {
    hide ReserveAll, Release, RowsAccepted, KeyFor, MarkItems, CanTransitionOrderStatus;
  }

  /** For every sequence of calls that the tables can hold, the two stores give the same replies and end
      with the same order statuses, reservation statuses, payment statuses and events. */
  lemma StoresAnswerAlike(t: Tables, calls: seq<Call>)
    requires SaneRun(NewStore(Some(t)), calls)
    ensures var a, b := ApplyAll(NewStore(None), calls), ApplyAll(NewStore(Some(t)), calls);
      && Agree(a, b)
      && forall n :: 0 <= n < |calls| ==>
           ReplyAfter(NewStore(None), calls[..n], calls[n]) == ReplyAfter(NewStore(Some(t)), calls[..n], calls[n])
  {
    hide ApplyAll, ReplyAfter, SaneRun;
    RunsAgree(NewStore(None), NewStore(Some(t)), calls);
  }

  /** A refused call changes nothing, in either store. */
  lemma RefusalChangesNothing(s: Store, c: Call)
    requires Apply(s, c).1.Refusal?
    ensures Apply(s, c).0 == s
  {
    hide ReserveAll, Release, RowsAccepted;
  }

  /** The order a call is about. */
  function Subject(c: Call): (id: string)
    requires !c.Insert?
  {
    if c.UpdateStatus? then c.id else c.source.order
  }

  /** The status a call asks for; a call that records a failure or a notification asks for none. */
  function Wanted(c: Call): (status: Option<OrderStatus>) {
    match c
    case UpdateStatus(_, status, _, _) => Some(status)
    case Reserved(_, _, _) => Some(StatusInventoryReserved)
    case Authorize(_, _, _, _) => Some(StatusPaymentAuthorized)
    case Ship(_, _, _, _) => Some(StatusShipmentCreated)
    case Cancel(_, _, _) => Some(StatusCancelled)
    case Compensate(_, status, _) => Some(status)
    case _ => None
  }

  /** Why the stock tables refuse the order's lines, if they do. */
  function StockRefusal(s: Store, source: Event): (error: Option<StoreError>)
    requires s.stock.Some? && source.order in s.orders
  {
    if s.orders[source.order].items == [] then Some(NotFound)
    else match ReserveAll(s.stock.value, source.merchant, source.order, s.orders[source.order].items)
      case Reserved(_) => None
      case Refused(error) =>
        if error == InsufficientStock then Some(NoStock)
        else if error == QuantityMismatch then Some(ReservationMismatch) else Some(ConstraintViolation)
  }

  /** The one rule behind the replies of all calls on a stored order: first the order must exist, then the
      status change must be allowed, then the tables must hold the result; nothing else is refused. */
  lemma RepliesSayWhy(s: Store, c: Call)
    requires !c.Insert?
    ensures var id, reply := Subject(c), Apply(s, c).1;
      if id !in s.orders then reply == Refusal(NotFound)
      else if Wanted(c).Some? && !CanTransitionOrderStatus(s.orders[id].status, Wanted(c).value) then
        reply == Refusal(InvalidStateTransition)
      else if s.stock.Some? && c.Authorize? && s.orders[id].totals.total < 0 then reply == Refusal(ConstraintViolation)
      else if s.stock.Some? && c.Reserved? && StockRefusal(s, c.source).Some? then
        reply == Refusal(StockRefusal(s, c.source).value)
      else reply == Accepted
  {
    hide ReserveAll, Release, CanTransitionOrderStatus, MarkItems, ReleaseItems, VoidPayment, FailedPayment, AdoptedProvider,
      FailedBooking, Compensated;
  }

  // ------------------------------------------------------------ live shipments

  /** The call takes the place of the order's shipment. */
  predicate Ships(s: Store, c: Call, id: string) {
    c.Ship? && c.source.order == id && Apply(s, c).1.Accepted?
  }

  /** The call fails a booking of an order that has a live shipment. */
  predicate FailsLive(s: Store, c: Call, id: string) {
    c.FailShipment? && c.source.order == id && id in s.orders && HasLiveShipment(s.orders[id])
  }

  /** Since the order's last shipment, a booking failed while that shipment was live. */
  predicate Erased(b: Store, calls: seq<Call>, id: string) {
    |calls| > 0 &&
    var before, c := ApplyAll(b, calls[..|calls| - 1]), calls[|calls| - 1];
    !Ships(before, c, id) && (FailsLive(before, c, id) || Erased(b, calls[..|calls| - 1], id))
  }

  /** How a call changes an order's shipment. */
  lemma ShipmentAfter(s: Store, c: Call, id: string)
    requires id in s.orders && (c.Insert? ==> c.draft.id != id)
    ensures id in Apply(s, c).0.orders
    ensures Apply(s, c).0.orders[id].shipment ==
      if Ships(s, c, id) then Some(c.shipment)
      else if c.FailShipment? && c.source.order == id then FailedBooking(s, s.orders[id])
      else s.orders[id].shipment
  {
    hide ReserveAll, Release, RowsAccepted, KeyFor, MarkItems, ReleaseItems, VoidPayment, CanTransitionOrderStatus, FailedBooking;
  }

  lemma NewHasNoShipment(s: Store, c: Call, id: string)
    requires Sane(s, c) && id !in s.orders && id in Apply(s, c).0.orders
    ensures Apply(s, c).0.orders[id].shipment.None?
  {
    hide ReserveAll, Release, RowsAccepted, KeyFor, MarkItems, ReleaseItems, VoidPayment, CanTransitionOrderStatus;
  }

  predicate Live(s: Store, id: string) {
    id in s.orders && HasLiveShipment(s.orders[id])
  }

  /** How a call changes whether an order has a live shipment. */
  lemma LiveNext(s: Store, c: Call, id: string)
    requires Sane(s, c)
    ensures Live(Apply(s, c).0, id) ==
      if Ships(s, c, id) then c.shipment.status != BookingFailed
      else if c.FailShipment? && c.source.order == id then s.stock.Some? && Live(s, id)
      else Live(s, id)
  {
    if id in s.orders {
      ShipmentAfter(s, c, id);
      hide Apply;
    } else {
      hide Ships;
      NeverShips(s, c, id);
      if id in Apply(s, c).0.orders {
        NewHasNoShipment(s, c, id);
      }
    }
  }

  lemma NeverShips(s: Store, c: Call, id: string)
    requires id !in s.orders
    ensures !Ships(s, c, id)
  {
  }

  /** Until a live shipment is erased the stores agree on it, and after that only the table has it. */
  ghost predicate LiveLike(a: Store, b: Store, id: string, erased: bool) {
    Live(b, id) == (Live(a, id) || erased) && !(erased && Live(a, id))
  }

  lemma LiveStep(a: Store, b: Store, c: Call, id: string, erased: bool)
    requires Agree(a, b) && Sane(b, c) && !StockOrConstraint(Apply(b, c).1) && LiveLike(a, b, id, erased)
    ensures LiveLike(Apply(a, c).0, Apply(b, c).0, id, !Ships(b, c, id) && (FailsLive(b, c, id) || erased))
  {
    assert Sane(a, c);
    AgreeOn(a, b, id);
    hide Apply, Agree, HasLiveShipment;
    CallAgrees(a, b, c);
    LiveNext(a, c, id);
    LiveNext(b, c, id);
  }

  lemma {:induction false} LiveRun(t: Tables, calls: seq<Call>, id: string)
    requires SaneRun(NewStore(Some(t)), calls)
    ensures LiveLike(ApplyAll(NewStore(None), calls), ApplyAll(NewStore(Some(t)), calls), id, Erased(NewStore(Some(t)), calls, id))
  {
    if |calls| > 0 {
      var front, c := calls[..|calls| - 1], calls[|calls| - 1];
      ShorterIsSane(NewStore(Some(t)), calls);
      LiveRun(t, front, id);
      StoresAnswerAlike(t, front);
      hide Agree, Apply, LiveLike, StockOrConstraint, Sane, Ships, FailsLive;
      LiveStep(ApplyAll(NewStore(None), front), ApplyAll(NewStore(Some(t)), front), c, id, Erased(NewStore(Some(t)), front, id));
    }
  }

  lemma ShorterIsSane(b: Store, calls: seq<Call>)
    requires SaneRun(b, calls) && |calls| > 0
    ensures SaneRun(b, calls[..|calls| - 1])
    ensures Sane(ApplyAll(b, calls[..|calls| - 1]), calls[|calls| - 1])
    ensures !StockOrConstraint(Apply(ApplyAll(b, calls[..|calls| - 1]), calls[|calls| - 1]).1)
  {
    hide Sane, StockOrConstraint, Apply, ApplyAll;
    var front := calls[..|calls| - 1];
    forall n | 0 <= n < |front|
      ensures Sane(ApplyAll(b, front[..n]), front[n]) && !StockOrConstraint(ReplyAfter(b, front[..n], front[n]))
    {
      assert front[..n] == calls[..n];
    }
  }

  /** On shipments the stores can differ: in memory a failed booking erases a live shipment, in the table it
      does not. After any calls they agree on whether an order has a live shipment if and only if no booking
      of it failed on a live shipment since it was last shipped. */
  lemma LiveShipmentsAgreeExactlyWhen(t: Tables, calls: seq<Call>, id: string)
    requires SaneRun(NewStore(Some(t)), calls)
    ensures Live(ApplyAll(NewStore(None), calls), id) == Live(ApplyAll(NewStore(Some(t)), calls), id)
      <==> !Erased(NewStore(Some(t)), calls, id)
  {
    hide ApplyAll, Live, Erased, SaneRun;
    LiveRun(t, calls, id);
  }

  // ------------------------------------------------------------ providers

  /** The provider the order's payment is recorded with. */
  function RecordedProvider(s: Store, source: Event, next: Event, payment: Payment, audit: AuditLog): (p: string)
    requires RecordPaymentAuthorized(s, source, next, payment, audit).1.Ok?
  {
    RecordPaymentAuthorized(s, source, next, payment, audit).0.orders[source.order].payment.value.provider
  }

  predicate KnowsProvider(order: Order) {
    order.payment.Some? && order.payment.value.provider != ""
  }

  /** An authorization is recorded with the provider it names, or else with the one the order already had;
      where neither is known the stores differ, and only there. */
  lemma ProvidersAgreeExactlyWhen(a: Store, b: Store, source: Event, next: Event, payment: Payment, audit: AuditLog)
    requires a.stock.None? && b.stock.Some? && source.order in a.orders && source.order in b.orders
    requires a.orders[source.order].payment == b.orders[source.order].payment
    requires RecordPaymentAuthorized(a, source, next, payment, audit).1.Ok?
    requires RecordPaymentAuthorized(b, source, next, payment, audit).1.Ok?
    ensures var order := a.orders[source.order];
      var inMemory, inTables := RecordedProvider(a, source, next, payment, audit), RecordedProvider(b, source, next, payment, audit);
      && (inMemory == inTables <==> payment.provider != "" || KnowsProvider(order))
      && (payment.provider != "" ==> inMemory == payment.provider)
      && (payment.provider == "" && KnowsProvider(order) ==> inMemory == order.payment.value.provider)
      && (payment.provider == "" && !KnowsProvider(order) ==> inMemory == "" && inTables == "fake-payment")
  {
    hide CanTransitionOrderStatus;
  }

  // ------------------------------------------------------------ calls that make them differ

  const DRAFT: Order :=
    Order("o", "m", "x", StatusPendingFulfillment, "EUR", Totals(1, 0, 1), [Item("a", 1, 1, ItemPending)],
      Some(Payment("p", PendingAuthorization, "")), None)

  const ONE_ROW: Tables := Tables(map["w" := Warehouse("m", true)], [StockRow("w", "a", 1, 0)], [])

  function Note(i: nat, kind: EventType): (e: Event) {
    Event(i, kind, "o", "m", "c", 0, 0)
  }

  /** Order, reserve, authorize, ship, and then fail the booking. */
  function ErasingCalls(): (calls: seq<Call>) {
    var log := AuditLog("o", "");
    [Insert("m", "k", DRAFT, Note(0, OrderCreated), log),
     Call.Reserved(Note(0, OrderCreated), Note(1, InventoryReserved), log),
     Authorize(Note(1, InventoryReserved), Note(2, PaymentAuthorized), Payment("p", PaymentStatus.Authorized, "r"), log),
     Ship(Note(2, PaymentAuthorized), Note(3, ShipmentCreated), Shipment("s", Booked), log),
     FailShipment(Note(2, PaymentAuthorized), Note(4, ShipmentFailed), log)]
  }

  lemma OneRowIsEnough()
    ensures ReserveAll(ONE_ROW, "m", "o", DRAFT.items).Reserved?
  {
    assert Candidate(ONE_ROW, "m", DRAFT.items[0], 0);
    assert forall k :: 0 <= k < |DRAFT.items| ==> !Repeats(DRAFT.items, k);
    DistinctLinesNeedStockOnly(ONE_ROW, "m", "o", DRAFT.items);
  }

  lemma After(s: Store, calls: seq<Call>, n: nat)
    requires n < |calls|
    ensures ApplyAll(s, calls[..n + 1]) == Apply(ApplyAll(s, calls[..n]), calls[n]).0
  {
    hide Apply;
    assert calls[..n + 1][..n] == calls[..n];
  }

  /** The relational store holds the order in this status, with or without a live shipment. */
  ghost predicate Holds(s: Store, status: OrderStatus, live: bool) {
    && s.stock.Some? && "o" in s.orders && s.orders["o"].status == status && s.orders["o"].totals.total == 1
    && HasLiveShipment(s.orders["o"]) == live
  }

  lemma Inserted()
    ensures var r := Apply(NewStore(Some(ONE_ROW)), ErasingCalls()[0]);
      && !StockOrConstraint(r.1) && Holds(r.0, StatusPendingFulfillment, false)
      && r.0.orders["o"] == DRAFT && r.0.stock == Some(ONE_ROW)
  {
    assert RowsAccepted(DRAFT.items);
  }

  lemma Reserves(s: Store)
    requires Holds(s, StatusPendingFulfillment, false) && s.orders["o"] == DRAFT && s.stock == Some(ONE_ROW)
    ensures var r := Apply(s, ErasingCalls()[1]); !StockOrConstraint(r.1) && Holds(r.0, StatusInventoryReserved, false)
  {
    hide ReserveAll;
    OneRowIsEnough();
  }

  lemma Proceeds(s: Store, n: nat)
    requires 2 <= n <= 4
    requires Holds(s, if n == 2 then StatusInventoryReserved else if n == 3 then StatusPaymentAuthorized else StatusShipmentCreated, n == 4)
    ensures var r := Apply(s, ErasingCalls()[n]);
      && !StockOrConstraint(r.1)
      && Holds(r.0, if n == 2 then StatusPaymentAuthorized else StatusShipmentCreated, n >= 3)
      && (n == 3 ==> r.1.Accepted?)
  {
  }

  /** After these calls the table still has the live shipment, and memory does not. */
  lemma ErasingCallsDiffer()
    ensures SaneRun(NewStore(Some(ONE_ROW)), ErasingCalls())
    ensures Live(ApplyAll(NewStore(Some(ONE_ROW)), ErasingCalls()), "o")
    ensures !Live(ApplyAll(NewStore(None), ErasingCalls()), "o")
  {
    var b, calls := NewStore(Some(ONE_ROW)), ErasingCalls();
    Inserted();
    After(b, calls, 0);
    After(b, calls, 1);
    After(b, calls, 2);
    After(b, calls, 3);
    After(b, calls, 4);
    assert calls[..0] == [] && calls[..5] == calls;
    assert ApplyAll(b, []) == b;
    FirstIsSane();
    hide Apply, ApplyAll, Holds, StockOrConstraint, ErasingCalls, Live, Sane, FailsLive, Ships;
    Reserves(ApplyAll(b, calls[..1]));
    Proceeds(ApplyAll(b, calls[..2]), 2);
    Proceeds(ApplyAll(b, calls[..3]), 3);
    Proceeds(ApplyAll(b, calls[..4]), 4);
    forall n | 0 <= n < |calls|
      ensures Sane(ApplyAll(b, calls[..n]), calls[n]) && !StockOrConstraint(ReplyAfter(b, calls[..n], calls[n]))
    {
      if n > 0 {
        OthersAreSane(ApplyAll(b, calls[..n]), calls[n]);
      }
    }
    BookingErases(ApplyAll(b, calls[..4]));
    LiveShipmentsAgreeExactlyWhen(ONE_ROW, calls, "o");
    HoldsIsLive(ApplyAll(b, calls));
  }

  lemma OthersAreSane(s: Store, c: Call)
    requires !c.Insert?
    ensures Sane(s, c)
  {
  }

  lemma BookingErases(s: Store)
    requires Holds(s, StatusShipmentCreated, true)
    ensures var c := ErasingCalls()[4]; !Ships(s, c, "o") && FailsLive(s, c, "o")
  {
  }

  lemma HoldsIsLive(s: Store)
    requires Holds(s, StatusShipmentCreated, true)
    ensures Live(s, "o")
  {
  }

  lemma FirstIsSane()
    ensures var calls := ErasingCalls();
      |calls| == 5 && Sane(NewStore(Some(ONE_ROW)), calls[0]) && forall n :: 1 <= n < 5 ==> !calls[n].Insert?
  {
    assert Plain("m");
  }
}
