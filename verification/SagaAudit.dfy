/** The audit log over whole runs: one row for every event written, every notification queued and every
    compensation done, and no other. Who a cancellation request is granted to, and what it answers. */
module SagaAudit {
  import opened OrderModel
  import opened Stock
  import opened Topology
  import opened OrderStore
  import opened Fulfillment
  import opened Saga
  import opened SagaInvariant
  import opened SagaSteps
  import opened SagaSafety
  import opened SagaTheorems

  /** The audit action that goes with an event. */
  function ActionOf(kind: EventType): (action: string) {
    match kind
    case OrderCreated => "order.create"
    case InventoryReserved => "inventory.reserved"
    case InventoryRejected => "inventory.rejected"
    case PaymentAuthorized => "payment.authorized"
    case PaymentFailed => "payment.failed"
    case ShipmentCreated => "shipment.created"
    case ShipmentFailed => "shipment.failed"
    case CancelRequested => "order.cancel_requested"
    case OrderCompleted => "order.completed"
    case OrderCancelled => "order.cancelled"
    case ManualReviewRequired => "order.manual_review_required"
    case OtherEvent(text) => text
  }

  /** The audit action of the two handlers that write no event. */
  function HandledAction(queue: Queue, kind: EventType): (action: string) {
    if queue == NotificationsEmail then "notification.email_queued"
    else match kind
      case InventoryRejected => "compensation.inventory_rejected"
      case PaymentFailed => "compensation.payment_failed"
      case _ => "compensation.shipment_failed"
  }

  predicate IsSilent(queue: Queue) {
    queue == NotificationsEmail || queue == OrdersCompensate
  }

  function EventRow(e: Event): (row: AuditLog) {
    AuditLog(e.order, ActionOf(e.kind))
  }

  function EventRows(outbox: seq<Event>): (rows: multiset<AuditLog>) {
    if |outbox| == 0 then multiset{}
    else EventRows(outbox[..|outbox| - 1]) + multiset{EventRow(outbox[|outbox| - 1])}
  }

  function HandledRow(e: Event, queue: Queue): (row: AuditLog) {
    AuditLog(e.order, HandledAction(queue, e.kind))
  }

  /** The rows of what a queue has handled among the first `n` events. */
  function HandledRows(s: State, queue: Queue, n: nat): (rows: multiset<AuditLog>)
    requires n <= |s.store.outbox|
  {
    if n == 0 then multiset{}
    else
      HandledRows(s, queue, n - 1)
        + if IsDone(s, Key(queue, n - 1)) then multiset{HandledRow(s.store.outbox[n - 1], queue)} else multiset{}
  }

  function AllRows(s: State): (rows: multiset<AuditLog>) {
    var n := |s.store.outbox|;
    EventRows(s.store.outbox) + HandledRows(s, NotificationsEmail, n) + HandledRows(s, OrdersCompensate, n)
  }

  ghost predicate Audited(s: State) {
    && (forall k :: k in s.runs ==> k.message < |s.store.outbox|)
    && multiset(s.store.audits) == AllRows(s)
  }

  // ------------------------------------------------------------ one step

  /** What one step of a handler adds to the outbox and the audit log. */
  ghost predicate Logs(queue: Queue, s: Store, event: Event, r: (Store, Verdict)) {
    if IsSilent(queue) then
      && r.0.outbox == s.outbox && !r.1.Continue?
      && r.0.audits == s.audits + (if r.1 == Success then [HandledRow(event, queue)] else [])
    else
      || (r.0.outbox == s.outbox && r.0.audits == s.audits)
      || Writes(s, r.0)
  }

  ghost predicate Writes(s: Store, s': Store) {
    var n := |s.outbox|;
    |s'.outbox| == n + 1 && s'.outbox == s.outbox + [s'.outbox[n]] && s'.audits == s.audits + [EventRow(s'.outbox[n])]
  }

  lemma FulfilmentLogs(queue: Queue, s: Store, pc: Pc, event: Event, answer: Answer)
    requires queue == InventoryReserve || queue == PaymentsAuthorize || queue == ShipmentsCreate
    ensures Logs(queue, s, event, Advance(queue, s, pc, event, answer))
  {
    hide ReserveAll, MarkItems, FailedPayment, AdoptedProvider, CanTransitionOrderStatus, FailedBooking;
    match queue
    case InventoryReserve => case PaymentsAuthorize => case ShipmentsCreate =>
  }

  lemma HandlerLogs(queue: Queue, s: Store, pc: Pc, event: Event, answer: Answer)
    requires Binds(queue, event.kind)
    ensures Logs(queue, s, event, Advance(queue, s, pc, event, answer))
  {
    hide Release, ReleaseItems, VoidPayment, HasLiveShipment, CanTransitionOrderStatus, Compensated, ReserveInventory,
      AuthorizePayment, CreateShipment;
    match queue
    case OrdersFinalize => case OrdersCancel => case OrdersCompensate => case NotificationsEmail =>
    case _ => FulfilmentLogs(queue, s, pc, event, answer);
  }

  lemma {:induction false} SameRows(s: State, s': State, queue: Queue, n: nat)
    requires n <= |s.store.outbox| <= |s'.store.outbox| && s.store.outbox[..n] == s'.store.outbox[..n]
    requires forall i :: 0 <= i < n ==> (IsDone(s, Key(queue, i)) <==> IsDone(s', Key(queue, i)))
    ensures HandledRows(s', queue, n) == HandledRows(s, queue, n)
  {
    if n > 0 {
      assert s.store.outbox[n - 1] == s.store.outbox[..n][n - 1] == s'.store.outbox[n - 1];
      assert s.store.outbox[..n - 1] == s.store.outbox[..n][..n - 1] == s'.store.outbox[..n - 1];
      SameRows(s, s', queue, n - 1);
    }
  }

  lemma {:induction false} OneMoreRow(s: State, s': State, queue: Queue, j: nat, n: nat)
    requires j < n <= |s.store.outbox| && s'.store.outbox == s.store.outbox
    requires !IsDone(s, Key(queue, j)) && IsDone(s', Key(queue, j))
    requires forall i :: 0 <= i < n && i != j ==> (IsDone(s, Key(queue, i)) <==> IsDone(s', Key(queue, i)))
    ensures HandledRows(s', queue, n) == HandledRows(s, queue, n) + multiset{HandledRow(s.store.outbox[j], queue)}
  {
    if j == n - 1 {
      SameRows(s, s', queue, n - 1);
    } else {
      OneMoreRow(s, s', queue, j, n - 1);
    }
  }

  lemma RowsGrow(outbox: seq<Event>, outbox': seq<Event>)
    requires |outbox'| == |outbox| + 1 && outbox <= outbox'
    ensures EventRows(outbox') == EventRows(outbox) + multiset{EventRow(outbox'[|outbox|])}
  {
    assert outbox'[..|outbox|] == outbox;
  }

  lemma NewEventIsUnhandled(s: State, s': State, queue: Queue)
    requires IsSilent(queue) && Writes(s.store, s'.store) && (forall k :: k in s'.runs ==> k.message < |s.store.outbox|)
    requires forall k: Key :: IsSilent(k.queue) ==> (IsDone(s', k) <==> IsDone(s, k))
    ensures HandledRows(s', queue, |s.store.outbox| + 1) == HandledRows(s, queue, |s.store.outbox|)
  {
    hide HandledRow, EventRow;
    var n := |s.store.outbox|;
    assert s'.store.outbox[..n] == s.store.outbox[..n];
    SameRows(s, s', queue, n);
    assert !IsDone(s', Key(queue, n));
  }

  lemma Appended(audits: seq<AuditLog>, row: AuditLog, a: multiset<AuditLog>, b: multiset<AuditLog>, c: multiset<AuditLog>)
    requires multiset(audits) == a + b + c
    ensures multiset(audits + [row]) == a + multiset{row} + b + c
  {
  }

  /** An event was written, by the API or by a handler that is not silent. */
  lemma WritingIsAudited(s: State, s': State)
    requires Audited(s) && Writes(s.store, s'.store)
    requires forall k :: k in s'.runs ==> k.message < |s.store.outbox|
    requires forall k: Key :: IsSilent(k.queue) ==> (IsDone(s', k) <==> IsDone(s, k))
    ensures Audited(s')
  {
    hide HandledRow, EventRow, EventRows, HandledRows;
    var n := |s.store.outbox|;
    RowsGrow(s.store.outbox, s'.store.outbox);
    NewEventIsUnhandled(s, s', NotificationsEmail);
    NewEventIsUnhandled(s, s', OrdersCompensate);
    Appended(s.store.audits, EventRow(s'.store.outbox[n]), EventRows(s.store.outbox), HandledRows(s, NotificationsEmail, n),
      HandledRows(s, OrdersCompensate, n));
  }

  /** Nothing was written. */
  lemma SilenceIsAudited(s: State, s': State)
    requires Audited(s) && s'.store.outbox == s.store.outbox && s'.store.audits == s.store.audits
    requires forall k :: k in s'.runs ==> k.message < |s.store.outbox|
    requires forall k: Key :: IsSilent(k.queue) ==> (IsDone(s', k) <==> IsDone(s, k))
    ensures Audited(s')
  {
    SameRows(s, s', NotificationsEmail, |s.store.outbox|);
    SameRows(s, s', OrdersCompensate, |s.store.outbox|);
  }

  /** A silent handler succeeded. */
  lemma HandlingIsAudited(s: State, s': State, key: Key)
    requires Audited(s) && IsSilent(key.queue) && key.message < |s.store.outbox| && s'.store.outbox == s.store.outbox
    requires s'.store.audits == s.store.audits + [HandledRow(s.store.outbox[key.message], key.queue)]
    requires s'.runs == s.runs[key := Succeeded] && !IsDone(s, key)
    ensures Audited(s')
  {
    hide HandledRow, EventRow, HandledRows, EventRows;
    var other, n := if key.queue == NotificationsEmail then OrdersCompensate else NotificationsEmail, |s.store.outbox|;
    OneMoreRow(s, s', key.queue, key.message, n);
    SameRows(s, s', other, n);
  }

  lemma WorkIsAudited(s: State, key: Key, answer: Answer)
    requires Audited(s) && IsRunning(s, key) && Binds(key.queue, s.store.outbox[key.message].kind)
    ensures Audited(Step(s, Work(key, answer)))
  {
    hide Audited, Advance, Binds, HandledRow;
    var event, s' := s.store.outbox[key.message], Step(s, Work(key, answer));
    var r := Advance(key.queue, s.store, s.runs[key].pc, event, answer);
    HandlerLogs(key.queue, s.store, s.runs[key].pc, event, answer);
    KeysInside(s);
    if IsSilent(key.queue) && r.1 == Success {
      HandlingIsAudited(s, s', key);
    } else if s'.store.outbox == s.store.outbox && s'.store.audits == s.store.audits {
      SilenceIsAudited(s, s');
    } else {
      WritingIsAudited(s, s');
    }
  }

  lemma KeysInside(s: State)
    requires Audited(s)
    ensures forall k :: k in s.runs ==> k.message < |s.store.outbox|
  {
  }

  lemma StepIsAudited(s: State, a: Action)
    requires Inv(s) && Audited(s)
    ensures Audited(Step(s, a))
  {
    hide Inv, Audited, Advance, RowsAccepted, LinesSound, AllItems, CanTransitionOrderStatus;
    KeysInside(s);
    var s' := Step(s, a);
    if a.Work? && IsRunning(s, a.key) {
      BoundKeys(s, a.key);
      WorkIsAudited(s, a.key, a.answer);
    } else if s'.store.outbox == s.store.outbox && s'.store.audits == s.store.audits {
      SilenceIsAudited(s, s');
    } else {
      IdsOf(s);
      WritingIsAudited(s, s');
    }
  }

  lemma BoundKeys(s: State, key: Key)
    requires Inv(s) && IsRunning(s, key)
    ensures Binds(key.queue, s.store.outbox[key.message].kind)
  {
    hide OrdersOk, EventsOk, StockLink;
    assert KeyOk(s, key);
  }

  // ------------------------------------------------------------ whole runs

  lemma {:induction false} RunIsAudited(s0: State, acts: seq<Action>)
    requires Init(s0)
    ensures Audited(Run(s0, acts))
  {
    if |acts| == 0 {
      assert s0.store.audits == [];
    } else {
      hide Init, Audited, Step;
      var front := acts[..|acts| - 1];
      RunIsAudited(s0, front);
      ReachableInv(s0, front);
      StepIsAudited(Run(s0, front), acts[|acts| - 1]);
    }
  }

  lemma {:induction false} HandledRowIsThere(s: State, queue: Queue, i: nat, n: nat)
    requires i < n <= |s.store.outbox| && IsDone(s, Key(queue, i))
    ensures HandledRow(s.store.outbox[i], queue) in HandledRows(s, queue, n)
  {
    if i < n - 1 {
      HandledRowIsThere(s, queue, i, n - 1);
    }
  }

  /** Whatever happens, the audit log holds one row for every event in the outbox, one for every notification
      that was queued and one for every compensation that was done, with their orders and actions, and no
      other row. */
  lemma AuditLogIsComplete(s0: State, acts: seq<Action>)
    requires Init(s0)
    ensures var s := Run(s0, acts);
      && multiset(s.store.audits) == AllRows(s)
      && forall i: nat :: i < |s.store.outbox| && IsDone(s, Key(NotificationsEmail, i)) ==>
           AuditLog(s.store.outbox[i].order, "notification.email_queued") in s.store.audits
  {
    hide Run, Init;
    RunIsAudited(s0, acts);
    var s := Run(s0, acts);
    forall i: nat | i < |s.store.outbox| && IsDone(s, Key(NotificationsEmail, i))
      ensures AuditLog(s.store.outbox[i].order, "notification.email_queued") in s.store.audits
    {
      HandledRowIsThere(s, NotificationsEmail, i, |s.store.outbox|);
      assert HandledRow(s.store.outbox[i], NotificationsEmail) in multiset(s.store.audits);
    }
  }

  // ------------------------------------------------------------ cancellation requests

  /** After any run, a cancellation request is granted exactly while the order exists and has not ended; it
      answers with the order it stored, which differs in its status only, and a refusal changes nothing. */
  lemma CancellationIsGrantedExactlyWhen(s0: State, acts: seq<Action>, id: string, correlation: string)
    requires Init(s0)
    ensures var s := Run(s0, acts).store;
      var (s', reply) := CancelStep(s, id, correlation);
      && (reply.Ok? <==> id in s.orders && !IsTerminal(s.orders[id].status))
      && (reply == Err(NotFound) <==> id !in s.orders)
      && (reply == Err(InvalidStateTransition) <==> id in s.orders && IsTerminal(s.orders[id].status))
      && (reply.Ok? ==> s'.orders == s.orders[id := reply.value] && reply.value == s.orders[id].(status := StatusCancellationPending))
      && (reply.Err? ==> s' == s)
  {
    hide Run, Init, EventsOk, KeysOk, StockLink, RowsAccepted, LinesSound;
    ReachableInv(s0, acts);
    var s := Run(s0, acts);
    if id in s.store.orders {
      assert OrderOk(s, id);
    }
  }

  /** A cancel handler that starts after the order has ended succeeds and changes nothing. */
  lemma LateCancellationIsIdle(s0: State, acts: seq<Action>, i: nat, answer: Answer)
    requires Init(s0) && i < |Run(s0, acts).store.outbox|
    requires var e := Run(s0, acts).store.outbox[i];
      e.kind == CancelRequested && e.order in Run(s0, acts).store.orders && IsTerminal(Run(s0, acts).store.orders[e.order].status)
    ensures var s := Run(s0, acts).store; Advance(OrdersCancel, s, Begin, s.outbox[i], answer) == (s, Success)
  {
    hide Run, Init;
    ReachableInv(s0, acts);
    var s := Run(s0, acts);
    var id := s.store.outbox[i].order;
    assert Requested(s.store.outbox, id);
    CancellationExcludesFulfilment(s0, acts, [], id);
    RunNothing(s);
    hide OrdersOk, KeysOk, StockLink, EventsOk;
    AnEvent(s, i);
  }
}
