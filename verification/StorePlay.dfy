/** The two store classes played with the same calls. */
module StorePlay {
  import opened OrderModel
  import opened Stock
  import opened OrderStore
  import opened StoreAgreement
  import opened Saga
  import opened SagaInvariant
  import opened SagaTheorems
  import opened SagaStores
  import MemoryStore
  import PostgresStore

  /** The replies to a sequence of calls. */
  ghost function Replies(s: Store, calls: seq<Call>): (replies: seq<Reply>)
    ensures |replies| == |calls|
  {
    if |calls| == 0 then [] else Replies(s, calls[..|calls| - 1]) + [ReplyAfter(s, calls[..|calls| - 1], calls[|calls| - 1])]
  }

  lemma {:induction false} ReplyAt(s: Store, calls: seq<Call>, n: nat)
    requires n < |calls|
    ensures Replies(s, calls)[n] == ReplyAfter(s, calls[..n], calls[n])
  {
    hide ReplyAfter;
    if n < |calls| - 1 {
      ReplyAt(s, calls[..|calls| - 1], n);
      assert calls[..|calls| - 1][..n] == calls[..n];
    }
  }

  /** One call on the in-memory store. */
  method CallMemory(m: MemoryStore.Memory, c: Call) returns (reply: Reply)
    requires m.Valid()
    modifies m
    ensures m.Valid()
    ensures (m.View(), reply) == Apply(old(m.View()), c)
  {
    hide InsertOrder, UpdateOrderStatus, RecordInventoryReserved, RecordInventoryRejected, RecordPaymentAuthorized,
      RecordPaymentFailed, RecordShipmentCreated, RecordShipmentFailed, RecordOrderCancelled, RecordNotificationQueued,
      RecordCompensation;
    match c
    case Insert(merchant, key, draft, event, audit) =>
      var r := m.InsertOrder(merchant, key, draft, event, audit);
      reply := CreateReply(r);
    case UpdateStatus(id, status, event, audit) =>
      var r := m.UpdateOrderStatus(id, status, event, audit);
      reply := ReplyOf(r);
    case Reserved(source, event, audit) =>
      var r := m.RecordInventoryReserved(source, event, audit);
      reply := ReplyOf(r);
    case Rejected(source, event, audit) =>
      var r := m.RecordInventoryRejected(source, event, audit);
      reply := ReplyOf(r);
    case Authorize(source, event, payment, audit) =>
      var r := m.RecordPaymentAuthorized(source, event, payment, audit);
      reply := ReplyOf(r);
    case FailPayment(source, event, audit) =>
      var r := m.RecordPaymentFailed(source, event, audit);
      reply := ReplyOf(r);
    case Ship(source, event, shipment, audit) =>
      var r := m.RecordShipmentCreated(source, event, shipment, audit);
      reply := ReplyOf(r);
    case FailShipment(source, event, audit) =>
      var r := m.RecordShipmentFailed(source, event, audit);
      reply := ReplyOf(r);
    case Cancel(source, event, audit) =>
      var r := m.RecordOrderCancelled(source, event, audit);
      reply := ReplyOf(r);
    case Notify(source, audit) =>
      var r := m.RecordNotificationQueued(source, audit);
      reply := ReplyOf(r);
    case Compensate(source, status, audit) =>
      var r := m.RecordCompensation(source, status, audit);
      reply := ReplyOf(r);
  }

  /** The service inserts its own merchant's orders, and not yet shipped. */
  predicate FromService(c: Call) {
    c.Insert? ==> c.draft.merchant == c.merchant && c.draft.shipment.None?
  }

  /** One call on the relational store. */
  method CallPostgres(p: PostgresStore.Postgres, c: Call) returns (reply: Reply)
    requires p.Valid() && FromService(c)
    modifies p
    ensures p.Valid()
    ensures (p.View(), reply) == Apply(old(p.View()), c)
  {
    hide InsertOrder, UpdateOrderStatus, RecordInventoryReserved, RecordInventoryRejected, RecordPaymentAuthorized,
      RecordPaymentFailed, RecordShipmentCreated, RecordShipmentFailed, RecordOrderCancelled, RecordNotificationQueued,
      RecordCompensation, PostgresStore.Join;
    match c
    case Insert(merchant, key, draft, event, audit) =>
      var r := p.InsertOrder(merchant, key, draft, event, audit);
      reply := CreateReply(r);
    case UpdateStatus(id, status, event, audit) =>
      var r := p.UpdateOrderStatus(id, status, event, audit);
      reply := ReplyOf(r);
    case Reserved(source, event, audit) =>
      var r := p.RecordInventoryReserved(source, event, audit);
      reply := ReplyOf(r);
    case Rejected(source, event, audit) =>
      var r := p.RecordInventoryRejected(source, event, audit);
      reply := ReplyOf(r);
    case Authorize(source, event, payment, audit) =>
      var r := p.RecordPaymentAuthorized(source, event, payment, audit);
      reply := ReplyOf(r);
    case FailPayment(source, event, audit) =>
      var r := p.RecordPaymentFailed(source, event, audit);
      reply := ReplyOf(r);
    case Ship(source, event, shipment, audit) =>
      var r := p.RecordShipmentCreated(source, event, shipment, audit);
      reply := ReplyOf(r);
    case FailShipment(source, event, audit) =>
      var r := p.RecordShipmentFailed(source, event, audit);
      reply := ReplyOf(r);
    case Cancel(source, event, audit) =>
      var r := p.RecordOrderCancelled(source, event, audit);
      reply := ReplyOf(r);
    case Notify(source, audit) =>
      var r := p.RecordNotificationQueued(source, audit);
      reply := ReplyOf(r);
    case Compensate(source, status, audit) =>
      var r := p.RecordCompensation(source, status, audit);
      reply := ReplyOf(r);
  }

  lemma OneMoreCall(s: Store, calls: seq<Call>, n: nat)
    requires n < |calls|
    ensures ApplyAll(s, calls[..n + 1]) == Apply(ApplyAll(s, calls[..n]), calls[n]).0
    ensures Replies(s, calls[..n + 1]) == Replies(s, calls[..n]) + [Apply(ApplyAll(s, calls[..n]), calls[n]).1]
  {
    hide Apply;
    assert calls[..n + 1][..n] == calls[..n];
  }

  /** Any calls on the in-memory store. */
  method PlayMemory(m: MemoryStore.Memory, calls: seq<Call>) returns (replies: seq<Reply>)
    requires m.Valid()
    modifies m
    ensures m.Valid()
    ensures m.View() == ApplyAll(old(m.View()), calls) && replies == Replies(old(m.View()), calls)
  {
    hide Apply;
    replies := [];
    for n := 0 to |calls|
      invariant m.Valid()
      invariant m.View() == ApplyAll(old(m.View()), calls[..n])
      invariant replies == Replies(old(m.View()), calls[..n])
    {
      OneMoreCall(old(m.View()), calls, n);
      var reply := CallMemory(m, calls[n]);
      replies := replies + [reply];
    }
    assert calls[..|calls|] == calls;
  }

  /** Any calls of the service on the relational store. */
  method PlayPostgres(p: PostgresStore.Postgres, calls: seq<Call>) returns (replies: seq<Reply>)
    requires p.Valid() && forall n :: 0 <= n < |calls| ==> FromService(calls[n])
    modifies p
    ensures p.Valid()
    ensures p.View() == ApplyAll(old(p.View()), calls) && replies == Replies(old(p.View()), calls)
  {
    hide Apply, FromService, PostgresStore.Join;
    replies := [];
    for n := 0 to |calls|
      invariant p.Valid()
      invariant p.View() == ApplyAll(old(p.View()), calls[..n])
      invariant replies == Replies(old(p.View()), calls[..n])
    {
      OneMoreCall(old(p.View()), calls, n);
      var reply := CallPostgres(p, calls[n]);
      replies := replies + [reply];
    }
    assert calls[..|calls|] == calls;
  }

  /** A new in-memory store and a new relational store with these stock tables, played with the same calls,
      give the same replies and end in agreement, as long as no call asks for what the tables cannot hold.
      They also agree on which orders have a live shipment, except where a booking failed on a live one. */
  method PlayBoth(tables: Tables, calls: seq<Call>)
    returns (m: MemoryStore.Memory, p: PostgresStore.Postgres, replies: seq<Reply>, others: seq<Reply>)
    requires SaneRun(NewStore(Some(tables)), calls)
    ensures m.Valid() && p.Valid() && fresh(m) && fresh(p)
    ensures Agree(m.View(), p.View()) && replies == others
    ensures forall id :: Live(m.View(), id) == Live(p.View(), id) <==> !Erased(NewStore(Some(tables)), calls, id)
  {
    m := new MemoryStore.Memory();
    p := new PostgresStore.Postgres(tables);
    SaneIsFromService(NewStore(Some(tables)), calls);
    replies := PlayMemory(m, calls);
    hide SaneRun, Agree, Live, Erased, ApplyAll;
    others := PlayPostgres(p, calls);
    StoresAnswerAlike(tables, calls);
    SameReplies(NewStore(None), NewStore(Some(tables)), calls);
    forall id: string
      ensures Live(m.View(), id) == Live(p.View(), id) <==> !Erased(NewStore(Some(tables)), calls, id)
    {
      LiveShipmentsAgreeExactlyWhen(tables, calls, id);
    }
  }

  lemma SaneIsFromService(s: Store, calls: seq<Call>)
    requires SaneRun(s, calls)
    ensures forall n :: 0 <= n < |calls| ==> FromService(calls[n])
  {
    hide ApplyAll, StockOrConstraint, ReplyAfter;
    forall n | 0 <= n < |calls| ensures FromService(calls[n]) {
      assert Sane(ApplyAll(s, calls[..n]), calls[n]);
    }
  }

  lemma SameReplies(a: Store, b: Store, calls: seq<Call>)
    requires forall n :: 0 <= n < |calls| ==> ReplyAfter(a, calls[..n], calls[n]) == ReplyAfter(b, calls[..n], calls[n])
    ensures Replies(a, calls) == Replies(b, calls)
  {
    hide ReplyAfter, Replies;
    forall n | 0 <= n < |calls| ensures Replies(a, calls)[n] == Replies(b, calls)[n] {
      ReplyAt(a, calls, n);
      ReplyAt(b, calls, n);
    }
  }

  /** A run of the saga on an in-memory store object: its calls leave the object with the store of the run,
      so what is proved of every run is true of the object. */
  method RunMemory(m: MemoryStore.Memory, ghost s0: State, ghost acts: seq<Action>, calls: seq<Call>)
    returns (replies: seq<Reply>)
    requires m.Valid() && Init(s0) && s0.store == m.View() && calls == CallsOf(s0, acts)
    modifies m
    ensures m.Valid() && m.View() == Run(s0, acts).store && Inv(Run(s0, acts))
  {
    RunIsCalls(s0, acts);
    ReachableInv(s0, acts);
    hide Run, ApplyAll, CallsOf, Inv, Init;
    replies := PlayMemory(m, calls);
  }

  /** The same on a relational store object. */
  method RunPostgres(p: PostgresStore.Postgres, ghost s0: State, ghost acts: seq<Action>, calls: seq<Call>)
    returns (replies: seq<Reply>)
    requires p.Valid() && Init(s0) && s0.store == p.View() && calls == CallsOf(s0, acts)
    modifies p
    ensures p.Valid() && p.View() == Run(s0, acts).store && Inv(Run(s0, acts))
  {
    RunIsCalls(s0, acts);
    ReachableInv(s0, acts);
    SagaCallsFromService(s0, acts);
    hide Run, ApplyAll, CallsOf, Inv, Init;
    replies := PlayPostgres(p, calls);
  }

  lemma {:induction false} SagaCallsFromService(s0: State, acts: seq<Action>)
    ensures forall n :: 0 <= n < |CallsOf(s0, acts)| ==> FromService(CallsOf(s0, acts)[n])
  {
    if |acts| > 0 {
      hide Run;
      SagaCallsFromService(s0, acts[..|acts| - 1]);
      CallFromService(Run(s0, acts[..|acts| - 1]), acts[|acts| - 1]);
      hide CallOf, FromService;
    }
  }

  lemma CallFromService(s: State, a: Action)
    ensures CallOf(s, a).Some? ==> FromService(CallOf(s, a).value)
  {
  }
}
