/** Counting over whole runs: how many events there can be, what money they carry, what happens to
    the stock tables, and how orders and their indexes stay in step. */
module SagaAccounts {
  import opened OrderModel
  import opened Stock
  import opened StockLaws
  import opened Topology
  import opened OrderStore
  import opened Fulfillment
  import opened Saga
  import opened SagaInvariant
  import opened SagaSafety
  import opened SagaTheorems
  import opened SagaHistory

  // ------------------------------------------------------------ the outbox is bounded

  function CountKind(outbox: seq<Event>, kind: EventType): (n: nat) {
    if |outbox| == 0 then 0
    else CountKind(outbox[..|outbox| - 1], kind) + if outbox[|outbox| - 1].kind == kind then 1 else 0
  }

  /** A price per event: `f` for the failure events, which two queues share, and `a` for the others. */
  function Price(kind: EventType, a: nat, f: nat): (n: nat) {
    if kind == InventoryRejected || kind == PaymentFailed || kind == ShipmentFailed then f else a
  }

  function Max(a: nat, b: nat): (m: nat) {
    if a < b then b else a
  }

  /** The price of what may still follow an event that has no successor yet. */
  function Remaining(kind: EventType, a: nat, f: nat): (n: nat) {
    match kind
    case OrderCreated => Max(2 * a + f, 4 * a)
    case InventoryReserved => Max(a + f, 3 * a)
    case PaymentAuthorized => Max(f, 2 * a)
    case ShipmentCreated => a
    case CancelRequested => a
    case _ => 0
  }

  ghost function Credit(s: State, n: nat, a: nat, f: nat): (c: nat)
    requires n <= |s.store.outbox|
  {
    if n == 0 then 0
    else Credit(s, n - 1, a, f) + if Unspent(s, n - 1) then Remaining(s.store.outbox[n - 1].kind, a, f) else 0
  }

  function Worth(outbox: seq<Event>, a: nat, f: nat): (n: nat) {
    if |outbox| == 0 then 0
    else Worth(outbox[..|outbox| - 1], a, f) + Price(outbox[|outbox| - 1].kind, a, f)
  }

  /** The most an order's own events can be worth. */
  function PerOrder(a: nat, f: nat): (n: nat) {
    Max(3 * a + f, 5 * a)
  }

  ghost predicate WithinBudget(s: State, a: nat, f: nat) {
    var outbox := s.store.outbox;
    Worth(outbox, a, f) + Credit(s, |outbox|, a, f)
      <= PerOrder(a, f) * CountKind(outbox, OrderCreated) + 2 * a * CountKind(outbox, CancelRequested)
  }

  lemma {:induction false} CreditShrinks(s: State, s': State, n: nat, c: nat, spent: bool, a: nat, f: nat)
    requires Grows(s, s') && n <= |s.store.outbox|
    requires spent && c < n ==> Unspent(s, c) && !Unspent(s', c)
    ensures Credit(s', n, a, f) + (if spent && c < n then Remaining(s.store.outbox[c].kind, a, f) else 0) <= Credit(s, n, a, f)
  {
    hide Remaining;
    if n > 0 {
      assert s'.store.outbox[n - 1] == s.store.outbox[n - 1];
      assert Unspent(s', n - 1) ==> Unspent(s, n - 1);
      CreditShrinks(s, s', n - 1, c, spent, a, f);
    }
  }

  /** An event and what may follow it are paid for by what may follow its cause. */
  lemma SuccessorIsPaidFor(cause: EventType, kind: EventType, a: nat, f: nat)
    requires Follows(cause, kind)
    ensures Price(kind, a, f) + Remaining(kind, a, f) <= Remaining(cause, a, f)
  {
  }

  /** What a root event is worth with all that may follow it. */
  lemma RootIsPaidFor(kind: EventType, a: nat, f: nat)
    requires IsRoot(kind)
    ensures Price(kind, a, f) + Remaining(kind, a, f) == if kind == OrderCreated then PerOrder(a, f) else 2 * a
  {
  }

  lemma OneMore(p: nat, n: nat)
    ensures p * (n + 1) == p * n + p
  {
  }

  lemma BudgetHolds(s: State, s': State, a: nat, f: nat)
    requires WithinBudget(s, a, f) && Grows(s, s')
    ensures WithinBudget(s', a, f)
  {
    hide Remaining, Price, PerOrder;
    var n := |s.store.outbox|;
    if |s'.store.outbox| == n {
      assert s'.store.outbox == s.store.outbox;
      CreditShrinks(s, s', n, 0, false, a, f);
    } else {
      var e := s'.store.outbox[n];
      assert s'.store.outbox[..n] == s.store.outbox;
      OneMore(PerOrder(a, f), CountKind(s.store.outbox, OrderCreated));
      OneMore(2 * a, CountKind(s.store.outbox, CancelRequested));
      if IsRoot(e.kind) {
        CreditShrinks(s, s', n, 0, false, a, f);
        RootIsPaidFor(e.kind, a, f);
      } else {
        assert s'.store.outbox[e.causation] == s.store.outbox[e.causation];
        CreditShrinks(s, s', n, e.causation, true, a, f);
        SuccessorIsPaidFor(s.store.outbox[e.causation].kind, e.kind, a, f);
      }
    }
  }

  lemma {:induction false} WorthOfOnes(outbox: seq<Event>)
    ensures Worth(outbox, 1, 1) == |outbox|
  {
    if |outbox| > 0 {
      WorthOfOnes(outbox[..|outbox| - 1]);
    }
  }

  // ------------------------------------------------------------ only creation adds orders

  ghost predicate SameIndexes(s: Store, s': Store) {
    s'.orders.Keys == s.orders.Keys && s'.byExternal == s.byExternal && s'.byIdempotency == s.byIdempotency
      && s'.stock.Some? == s.stock.Some?
  }

  lemma FulfilmentKeepsIndexes(queue: Queue, s: Store, pc: Pc, event: Event, answer: Answer)
    requires queue == InventoryReserve || queue == PaymentsAuthorize || queue == ShipmentsCreate
    ensures SameIndexes(s, Advance(queue, s, pc, event, answer).0)
  {
    hide ReserveAll, MarkItems, FailedPayment, AdoptedProvider, CanTransitionOrderStatus;
  }

  lemma EndingKeepsIndexes(queue: Queue, s: Store, pc: Pc, event: Event, answer: Answer)
    requires queue != InventoryReserve && queue != PaymentsAuthorize && queue != ShipmentsCreate
    ensures SameIndexes(s, Advance(queue, s, pc, event, answer).0)
  {
    hide Release, ReleaseItems, VoidPayment, Compensated, HasLiveShipment, CanTransitionOrderStatus;
  }

  /** No handler adds an order or touches an index. */
  lemma HandlersKeepIndexes(queue: Queue, s: Store, pc: Pc, event: Event, answer: Answer)
    ensures SameIndexes(s, Advance(queue, s, pc, event, answer).0)
  {
    hide Advance, SameIndexes;
    if queue == InventoryReserve || queue == PaymentsAuthorize || queue == ShipmentsCreate {
      FulfilmentKeepsIndexes(queue, s, pc, event, answer);
    } else {
      EndingKeepsIndexes(queue, s, pc, event, answer);
    }
  }

  lemma StepIndexes(s: State, a: Action)
    ensures !a.Create? ==> SameIndexes(s.store, Step(s, a).store)
  {
    hide Advance;
    if a.Work? && IsRunning(s, a.key) {
      HandlersKeepIndexes(a.key.queue, s.store, s.runs[a.key].pc, s.store.outbox[a.key.message], a.answer);
    }
  }

  /** An index is a bijection between its keys and the orders. */
  ghost predicate Bijective<K, V>(index: map<K, V>, ids: set<V>) {
    && |index| == |ids|
    && index.Values == ids
    && forall k, l :: k in index && l in index && index[k] == index[l] ==> k == l
  }

  lemma BijectionGrows<K, V>(index: map<K, V>, ids: set<V>, key: K, id: V)
    requires Bijective(index, ids) && key !in index && id !in ids
    ensures Bijective(index[key := id], ids + {id})
  {
    var index' := index[key := id];
    assert |index'| == |index| + 1;
    assert forall k :: k in index ==> index[k] in index.Values;
    forall x | x in ids + {id} ensures x in index'.Values {
      if x == id {
        assert index'[key] == x;
      } else {
        var k :| k in index && index[k] == x;
        assert index'[k] == x;
      }
    }
    assert index'.Values == ids + {id};
  }

  ghost predicate ExternalKeys(s: Store) {
    forall id :: id in s.orders ==>
      var k := KeyFor(s, s.orders[id].merchant, s.orders[id].external); k in s.byExternal && s.byExternal[k] == id
  }

  /** Every order has exactly one order.created event, and every such event names a stored order. */
  ghost predicate CreatedOnce(outbox: seq<Event>, ids: set<string>) {
    && (forall i :: 0 <= i < |outbox| && outbox[i].kind == OrderCreated ==> outbox[i].order in ids)
    && (forall i, j :: 0 <= i < j < |outbox| && outbox[i].kind == OrderCreated && outbox[j].kind == OrderCreated ==>
          outbox[i].order != outbox[j].order)
    && forall id :: id in ids ==> Announced(outbox, id)
  }

  ghost predicate Announced(outbox: seq<Event>, id: string) {
    exists i :: 0 <= i < |outbox| && outbox[i].kind == OrderCreated && outbox[i].order == id
  }

  lemma AnnouncedStays(outbox: seq<Event>, outbox': seq<Event>, id: string)
    requires outbox <= outbox' && Announced(outbox, id)
    ensures Announced(outbox', id)
  {
    var i :| 0 <= i < |outbox| && outbox[i].kind == OrderCreated && outbox[i].order == id;
    assert outbox'[i] == outbox[i];
  }

  lemma CreatedGrows(outbox: seq<Event>, ids: set<string>, e: Event)
    requires CreatedOnce(outbox, ids) && e.kind == OrderCreated && e.order !in ids
    ensures CreatedOnce(outbox + [e], ids + {e.order})
  {
    var outbox' := outbox + [e];
    assert outbox'[|outbox|] == e;
    forall id | id in ids + {e.order} ensures Announced(outbox', id) {
      if id != e.order {
        AnnouncedStays(outbox, outbox', id);
      }
    }
  }

  lemma CreatedStays(outbox: seq<Event>, outbox': seq<Event>, ids: set<string>)
    requires CreatedOnce(outbox, ids) && outbox <= outbox' && |outbox'| <= |outbox| + 1
    requires |outbox'| == |outbox| + 1 ==> outbox'[|outbox|].kind != OrderCreated
    ensures CreatedOnce(outbox', ids)
  {
    forall id | id in ids ensures Announced(outbox', id) {
      AnnouncedStays(outbox, outbox', id);
    }
  }

  /** Orders, the external-ID index, the idempotency index and the order.created events correspond
      one to one, and an order is filed under its own external ID. */
  ghost predicate Indexed(s: Store) {
    && CountKind(s.outbox, OrderCreated) == |s.orders.Keys|
    && CreatedOnce(s.outbox, s.orders.Keys)
    && Bijective(s.byExternal, s.orders.Keys)
    && Bijective(s.byIdempotency, s.orders.Keys)
    && ExternalKeys(s)
  }

  lemma CountAppend(outbox: seq<Event>, e: Event, kind: EventType)
    ensures CountKind(outbox + [e], kind) == CountKind(outbox, kind) + if e.kind == kind then 1 else 0
  {
    assert (outbox + [e])[..|outbox|] == outbox;
  }

  /** A creation that changes anything files a new order under two new keys. */
  lemma CreateEffect(s: Store, merchant: string, key: string, order: Order, correlation: string)
    requires NewOrder(s, merchant, order)
    ensures var s' := CreateStep(s, merchant, key, order, correlation).0;
      s' == s
      || (var external, idempotency := KeyFor(s, merchant, order.external), KeyFor(s, merchant, key);
          && external !in s.byExternal && idempotency !in s.byIdempotency
          && s'.orders == s.orders[order.id := order] && s'.stock == s.stock
          && s'.byExternal == s.byExternal[external := order.id] && s'.byIdempotency == s.byIdempotency[idempotency := order.id]
          && s'.outbox == s.outbox + [RootEvent(s, OrderCreated, order, correlation, order.totals.total)])
  {
    hide RowsAccepted, LinesSound, KeyFor;
  }

  lemma ExternalKeysGrow(s: Store, s': Store, order: Order)
    requires ExternalKeys(s) && order.id !in s.orders && KeyFor(s, order.merchant, order.external) !in s.byExternal
    requires s'.orders == s.orders[order.id := order] && s'.stock == s.stock
    requires s'.byExternal == s.byExternal[KeyFor(s, order.merchant, order.external) := order.id]
    ensures ExternalKeys(s')
  {
  }

  lemma KeysGrow<K, V>(m: map<K, V>, k: K, v: V)
    ensures m[k := v].Keys == m.Keys + {k}
  {
  }

  lemma CreateIndexes(s: Store, merchant: string, key: string, order: Order, correlation: string)
    requires Indexed(s) && NewOrder(s, merchant, order)
    ensures Indexed(CreateStep(s, merchant, key, order, correlation).0)
  {
    CreateEffect(s, merchant, key, order, correlation);
    hide RowsAccepted, LinesSound, Bijective, CountKind, CreatedOnce, CreateStep, ExternalKeys, KeyFor;
    var s' := CreateStep(s, merchant, key, order, correlation).0;
    if s' != s {
      CreatedGrows(s.outbox, s.orders.Keys, RootEvent(s, OrderCreated, order, correlation, order.totals.total));
      CountAppend(s.outbox, RootEvent(s, OrderCreated, order, correlation, order.totals.total), OrderCreated);
      KeysGrow(s.orders, order.id, order);
      BijectionGrows(s.byExternal, s.orders.Keys, KeyFor(s, merchant, order.external), order.id);
      BijectionGrows(s.byIdempotency, s.orders.Keys, KeyFor(s, merchant, key), order.id);
      ExternalKeysGrow(s, s', order);
    }
  }

  lemma KeptIndexes(s: State, s': State)
    requires Indexed(s.store) && SameIndexes(s.store, s'.store) && Evolved(s, s')
    requires CountKind(s'.store.outbox, OrderCreated) == CountKind(s.store.outbox, OrderCreated)
    requires CreatedOnce(s'.store.outbox, s.store.orders.Keys)
    ensures Indexed(s'.store)
  {
    hide Bijective, Grows, CreatedOnce;
    forall id | id in s'.store.orders
      ensures var k := KeyFor(s'.store, s'.store.orders[id].merchant, s'.store.orders[id].external);
        k in s'.store.byExternal && s'.store.byExternal[k] == id
    {
      assert Evolves(s.store.orders[id], s'.store.orders[id], Requested(s.store.outbox, id));
    }
  }

  lemma IndexedStep(s: State, a: Action)
    requires Inv(s) && Indexed(s.store)
    ensures Indexed(Step(s, a).store)
  {
    hide Inv, Evolved, Indexed;
    var s' := Step(s, a);
    StepKeepsInv(s, a);
    if a.Create? {
      if s' != s {
        CreateIndexes(s.store, a.merchant, a.idempotencyKey, a.draft, a.correlation);
      }
    } else {
      StepIndexes(s, a);
      CreatedIsNew(s, a);
      CountStays(s, s', a);
      CreatedKept(s, s');
      KeptIndexes(s, s');
    }
  }

  lemma CreatedKept(s: State, s': State)
    requires Indexed(s.store) && Evolved(s, s')
    requires |s'.store.outbox| == |s.store.outbox| + 1 ==> s'.store.outbox[|s.store.outbox|].kind != OrderCreated
    ensures CreatedOnce(s'.store.outbox, s.store.orders.Keys)
  {
    hide Bijective, CreatedOnce, Evolves;
    CreatedStays(s.store.outbox, s'.store.outbox, s.store.orders.Keys);
  }

  lemma CountStays(s: State, s': State, a: Action)
    requires Evolved(s, s')
    requires |s'.store.outbox| == |s.store.outbox| + 1 ==> s'.store.outbox[|s.store.outbox|].kind != OrderCreated
    ensures CountKind(s'.store.outbox, OrderCreated) == CountKind(s.store.outbox, OrderCreated)
  {
    var n := |s.store.outbox|;
    if |s'.store.outbox| == n {
      assert s'.store.outbox == s.store.outbox;
    } else {
      assert s'.store.outbox[..n] == s.store.outbox;
    }
  }

  lemma {:induction false} IndexesHold(s0: State, acts: seq<Action>)
    requires Init(s0)
    ensures Indexed(Run(s0, acts).store)
  {
    if |acts| > 0 {
      hide Inv, Step, Indexed;
      IndexesHold(s0, acts[..|acts| - 1]);
      ReachableInv(s0, acts[..|acts| - 1]);
      IndexedStep(Run(s0, acts[..|acts| - 1]), acts[|acts| - 1]);
    }
  }

  lemma {:induction false} BudgetRun(s0: State, acts: seq<Action>, a: nat, f: nat)
    requires Init(s0)
    ensures WithinBudget(Run(s0, acts), a, f)
  {
    if |acts| > 0 {
      hide Inv, Step, WithinBudget;
      var m := Run(s0, acts[..|acts| - 1]);
      BudgetRun(s0, acts[..|acts| - 1], a, f);
      ReachableInv(s0, acts[..|acts| - 1]);
      StepKeepsInv(m, acts[|acts| - 1]);
      BudgetHolds(m, Run(s0, acts), a, f);
    }
  }

  /** Whatever events cost, failure events `f` and the others `a`, the outbox is never worth more than the
      dearer of three plain events and a failure or five plain events per order, and two plain events per
      accepted cancellation. */
  lemma OutboxIsWorthAtMost(s0: State, acts: seq<Action>, a: nat, f: nat)
    requires Init(s0)
    ensures var s := Run(s0, acts).store;
      Worth(s.outbox, a, f) <= PerOrder(a, f) * |s.orders| + 2 * a * CountKind(s.outbox, CancelRequested)
  {
    hide Run, Init, Worth, PerOrder;
    BudgetRun(s0, acts, a, f);
    IndexesHold(s0, acts);
    assert |Run(s0, acts).store.orders.Keys| == |Run(s0, acts).store.orders|;
  }

  /** The outbox never exceeds five events per order and two per accepted cancellation. */
  lemma OutboxIsBounded(s0: State, acts: seq<Action>)
    requires Init(s0)
    ensures var s := Run(s0, acts).store;
      |s.outbox| <= 5 * |s.orders| + 2 * CountKind(s.outbox, CancelRequested)
  {
    hide Run, Init;
    OutboxIsWorthAtMost(s0, acts, 1, 1);
    WorthOfOnes(Run(s0, acts).store.outbox);
  }

  /** In every reachable store the orders, both indexes and the order.created events are in bijection. */
  lemma IndexesStayInStep(s0: State, acts: seq<Action>)
    requires Init(s0)
    ensures Indexed(Run(s0, acts).store)
  {
    hide Run, Init;
    IndexesHold(s0, acts);
  }

  // ------------------------------------------------------------ idempotent creation

  /** Index entries are never removed or redirected. */
  ghost predicate KeepsEntries(s: Store, s': Store) {
    && s'.stock.Some? == s.stock.Some?
    && forall k :: k in s.byIdempotency ==> k in s'.byIdempotency && s'.byIdempotency[k] == s.byIdempotency[k]
  }

  lemma {:induction false} EntriesStay(s: State, acts: seq<Action>)
    ensures KeepsEntries(s.store, Run(s, acts).store)
  {
    hide NewOrder, RowsAccepted, LinesSound, Advance;
    if |acts| > 0 {
      EntriesStay(s, acts[..|acts| - 1]);
      StepIndexes(Run(s, acts[..|acts| - 1]), acts[|acts| - 1]);
    }
  }

  /** A repeated idempotency key always returns the order it first named, as it is now, and changes
      nothing: no order, no index entry, no event and no audit row, whatever else is in the request. */
  lemma RepeatedKeyIsIdle(
    s0: State, acts: seq<Action>, more: seq<Action>, merchant: string, key: string, draft: Order, event: Event, audit: AuditLog)
    requires Init(s0) && KeyFor(s0.store, merchant, key) in Run(s0, acts).store.byIdempotency
    ensures var id := Run(s0, acts).store.byIdempotency[KeyFor(s0.store, merchant, key)];
      var s := Run(Run(s0, acts), more).store;
      id in s.orders && InsertOrder(s, merchant, key, draft, event, audit) == (s, Ok((s.orders[id], true)))
  {
    hide Run, Init, RowsAccepted, LinesSound, Inv, After, OrderAfter;
    var m := Run(s0, acts);
    EntriesStay(s0, acts);
    EntriesStay(m, more);
    IndexesStayInStep(s0, acts);
    var id := m.store.byIdempotency[KeyFor(s0.store, merchant, key)];
    assert id in m.store.byIdempotency.Values;
    ReachableInv(s0, acts);
    RunGoesForward(m, more);
    StillThere(m, Run(m, more), id);
  }

  lemma StillThere(s: State, s': State, id: string)
    requires After(s, s') && id in s.store.orders
    ensures id in s'.store.orders
  {
  }

  /** An order is stored whose merchant and external ID have this key. */
  ghost predicate Taken(s: Store, key: IndexKey) {
    exists id :: id in s.orders && KeyFor(s, s.orders[id].merchant, s.orders[id].external) == key
  }

  lemma TakenIsIndexed(s: Store, key: IndexKey)
    requires Bijective(s.byExternal, s.orders.Keys) && ExternalKeys(s)
    ensures Taken(s, key) <==> key in s.byExternal
  {
    hide KeyFor;
    if key in s.byExternal {
      var id := s.byExternal[key];
      assert id in s.byExternal.Values;
      assert KeyFor(s, s.orders[id].merchant, s.orders[id].external) == key;
    }
  }

  /** In the relational store that means the same merchant and the same external ID. */
  lemma TakenInTables(s: Store, merchant: string, external: string)
    requires s.stock.Some?
    ensures Taken(s, KeyFor(s, merchant, external)) <==>
      exists id :: id in s.orders && s.orders[id].merchant == merchant && s.orders[id].external == external
  {
  }

  /** The store with one more order, its two index entries, its event and its audit row. */
  ghost predicate Filed(s: Store, s': Store, merchant: string, key: string, draft: Order) {
    && s'.orders == s.orders[draft.id := draft] && s'.stock == s.stock
    && s'.byIdempotency == s.byIdempotency[KeyFor(s, merchant, key) := draft.id]
    && s'.byExternal == s.byExternal[KeyFor(s, merchant, draft.external) := draft.id]
    && |s'.outbox| == |s.outbox| + 1 && |s'.audits| == |s.audits| + 1
  }

  /** How a creation request with a fresh order ID is answered after any run: a known idempotency key gives the
      order it named, marked as a replay; otherwise an external ID that a stored order has is a duplicate,
      lines the tables cannot hold are refused, and anything else is stored and answered as new. Only the
      last changes the store. */
  lemma CreationIsAnswered(s0: State, acts: seq<Action>, merchant: string, key: string, draft: Order, correlation: string)
    requires Init(s0) && draft.id !in Run(s0, acts).store.orders
    ensures var s := Run(s0, acts).store;
      var (s', reply) := CreateStep(s, merchant, key, draft, correlation);
      if KeyFor(s, merchant, key) in s.byIdempotency then
        var named := s.byIdempotency[KeyFor(s, merchant, key)];
        s' == s && named in s.orders && reply == Ok((s.orders[named], true))
      else if Taken(s, KeyFor(s, merchant, draft.external)) then s' == s && reply == Err(DuplicateOrder)
      else if s.stock.Some? && Unstorable(draft.items) then s' == s && reply == Err(ConstraintViolation)
      else Filed(s, s', merchant, key, draft) && reply == Ok((draft, false))
  {
    hide Run, Init, RowsAccepted, Unstorable, KeyFor, Taken;
    IndexesStayInStep(s0, acts);
    var s := Run(s0, acts).store;
    TakenIsIndexed(s, KeyFor(s, merchant, draft.external));
    if KeyFor(s, merchant, key) in s.byIdempotency {
      assert s.byIdempotency[KeyFor(s, merchant, key)] in s.byIdempotency.Values;
    }
  }

  // ------------------------------------------------------------ money

  /** Every event that names an amount names its order's total. */
  ghost predicate AmountsRight(s: State) {
    forall i: nat :: i < |s.store.outbox| ==>
      && s.store.outbox[i].order in s.store.orders
      && (s.store.outbox[i].kind == OrderCreated || s.store.outbox[i].kind == PaymentAuthorized ==>
            s.store.outbox[i].amount == s.store.orders[s.store.outbox[i].order].totals.total)
  }

  /** An event appended to an order that names an amount names its total. */
  ghost predicate NamesTotal(s: Store, s': Store) {
    var n := |s.outbox|;
    |s'.outbox| == n + 1 && s'.outbox[n].order in s'.orders ==>
      var e := s'.outbox[n];
      e.kind == OrderCreated || e.kind == PaymentAuthorized ==> e.amount == s'.orders[e.order].totals.total
  }

  lemma HandlersNameTotals(queue: Queue, s: Store, pc: Pc, event: Event, answer: Answer)
    ensures NamesTotal(s, Advance(queue, s, pc, event, answer).0)
  {
    hide ReserveAll, Release, MarkItems, ReleaseItems, VoidPayment, FailedPayment, AdoptedProvider, HasLiveShipment,
      CanTransitionOrderStatus;
    match queue
    case InventoryReserve => case PaymentsAuthorize => case ShipmentsCreate => case OrdersFinalize =>
    case OrdersCancel => case OrdersCompensate => case NotificationsEmail =>
  }

  lemma NewAmount(s: State, a: Action)
    ensures NamesTotal(s.store, Step(s, a).store)
  {
    hide RowsAccepted, LinesSound, Advance, NewOrder, CanTransitionOrderStatus;
    if a.Work? && IsRunning(s, a.key) {
      HandlersNameTotals(a.key.queue, s.store, s.runs[a.key].pc, s.store.outbox[a.key.message], a.answer);
    }
  }

  lemma AmountsStep(s: State, s': State)
    requires AmountsRight(s) && Evolved(s, s') && EventsOk(s')
    requires NamesTotal(s.store, s'.store)
    ensures AmountsRight(s')
  {
    hide EventsOk;
    forall i: nat | i < |s'.store.outbox|
      ensures s'.store.outbox[i].order in s'.store.orders
      ensures s'.store.outbox[i].kind == OrderCreated || s'.store.outbox[i].kind == PaymentAuthorized ==>
        s'.store.outbox[i].amount == s'.store.orders[s'.store.outbox[i].order].totals.total
    {
      AnEvent(s', i);
      if i < |s.store.outbox| {
        var e := s.store.outbox[i];
        assert s'.store.outbox[i] == e;
        assert Evolves(s.store.orders[e.order], s'.store.orders[e.order], Requested(s.store.outbox, e.order));
      }
    }
  }

  lemma InvEvents(s: State)
    requires Inv(s)
    ensures EventsOk(s) && KeysOk(s)
  {
  }

  lemma {:induction false} AmountsHold(s0: State, acts: seq<Action>)
    requires Init(s0)
    ensures AmountsRight(Run(s0, acts))
  {
    hide Inv, Step, Evolved, EventsOk, KeysOk;
    if |acts| > 0 {
      var m, a := Run(s0, acts[..|acts| - 1]), acts[|acts| - 1];
      AmountsHold(s0, acts[..|acts| - 1]);
      ReachableInv(s0, acts[..|acts| - 1]);
      StepKeepsInv(m, a);
      NewAmount(m, a);
      InvEvents(Run(s0, acts));
      AmountsStep(m, Run(s0, acts));
    }
  }

  /** The amount the payment provider is asked for, and the amount in every order.created and
      payment.authorized event, is the total the order was created with. */
  lemma MoneyIsTheTotal(s0: State, acts: seq<Action>, key: Key)
    requires Init(s0)
    ensures AmountsRight(Run(s0, acts))
    ensures var s := Run(s0, acts);
      key in s.runs && s.runs[key].Running? && s.runs[key].pc.Paying? ==>
        && key.message < |s.store.outbox| && s.store.outbox[key.message].order in s.store.orders
        && s.runs[key].pc.amount == s.store.orders[s.store.outbox[key.message].order].totals.total
  {
    hide Run, Init, Inv, EventsOk, AmountsRight;
    AmountsHold(s0, acts);
    ReachableInv(s0, acts);
    InvEvents(Run(s0, acts));
    var s := Run(s0, acts);
    assert key in s.runs ==> KeyOk(s, key);
  }

  // ------------------------------------------------------------ stock over whole runs

  /** What a handler step does to the tables is nothing, one reservation or one release. */
  lemma HandlersMoveStock(queue: Queue, s: Store, pc: Pc, event: Event, answer: Answer) returns (ops: seq<StockOp>)
    requires s.stock.Some?
    ensures var s' := Advance(queue, s, pc, event, answer).0;
      s'.stock.Some? && s'.stock.value == RunOps(s.stock.value, ops)
  {
    hide ReserveAll, Release;
    var s' := Advance(queue, s, pc, event, answer).0;
    if s'.stock == s.stock {
      ops := [];
    } else if queue == InventoryReserve {
      ops := [ReserveOp(event.merchant, event.order, s.orders[event.order].items)];
      assert ops[..0] == [];
    } else {
      ops := [ReleaseOp(event.order)];
      assert ops[..0] == [];
    }
  }

  lemma {:induction false} RunOpsAppend(t: Tables, ops: seq<StockOp>, more: seq<StockOp>)
    ensures RunOps(RunOps(t, ops), more) == RunOps(t, ops + more)
  {
    if |more| == 0 {
      assert ops + more == ops;
    } else {
      var n := |more| - 1;
      assert (ops + more)[..|ops + more| - 1] == ops + more[..n];
      RunOpsAppend(t, ops, more[..n]);
    }
  }

  lemma {:induction false} RunMovesStock(s: State, acts: seq<Action>) returns (ops: seq<StockOp>)
    requires s.store.stock.Some?
    ensures Run(s, acts).store.stock.Some? && Run(s, acts).store.stock.value == RunOps(s.store.stock.value, ops)
  {
    hide Advance, NewOrder, RowsAccepted, LinesSound;
    if |acts| == 0 {
      ops := [];
    } else {
      var before := RunMovesStock(s, acts[..|acts| - 1]);
      var m, a := Run(s, acts[..|acts| - 1]), acts[|acts| - 1];
      if a.Work? && IsRunning(m, a.key) {
        var now := HandlersMoveStock(a.key.queue, m.store, m.runs[a.key].pc, m.store.outbox[a.key.message], a.answer);
        RunOpsAppend(s.store.stock.value, before, now);
        ops := before + now;
      } else {
        ops := before;
      }
    }
  }

  /** Over every run of the saga on the relational store: on every stock row available + reserved is
      what it was at the start, neither is negative, and reserved is exactly what the orders hold. */
  lemma SagaConservesStock(s0: State, acts: seq<Action>)
    requires Init(s0) && s0.store.stock.Some?
    ensures var t0 := s0.store.stock.value; var s := Run(s0, acts).store;
      && s.stock.Some? && StockOk(s.stock.value) && SameTotals(t0, s.stock.value)
      && forall i :: 0 <= i < |s.stock.value.rows| ==>
           0 <= s.stock.value.rows[i].reserved && 0 <= s.stock.value.rows[i].available <= t0.rows[i].available
  {
    hide Run, StockOk, SameTotals;
    var ops := RunMovesStock(s0, acts);
    StockIsConserved(s0.store.stock.value, ops);
  }
}
