/** The outbox as a history: causation chains, and that no stage of an order is emitted twice. */
module SagaHistory {
  import opened OrderModel
  import opened Stock
  import opened StockLaws
  import opened Topology
  import opened OrderStore
  import opened Fulfillment
  import opened Saga
  import opened SagaInvariant
  import opened SagaSafety
  import opened SagaTheorems

  // ------------------------------------------------------------ causation

  ghost predicate WellCaused(outbox: seq<Event>) {
    forall i: nat :: i < |outbox| ==>
      && outbox[i].id == i
      && (if IsRoot(outbox[i].kind) then outbox[i].causation == i else CausedBy(outbox, i, outbox[i].causation))
  }

  /** The event an event's causation chain starts at. */
  ghost function Root(outbox: seq<Event>, i: nat): (r: nat)
    requires WellCaused(outbox) && i < |outbox|
    ensures r < |outbox|
    decreases i
  {
    if IsRoot(outbox[i].kind) then i else Root(outbox, outbox[i].causation)
  }

  lemma {:induction false} RootSharesIdentity(outbox: seq<Event>, i: nat)
    requires WellCaused(outbox) && i < |outbox|
    ensures var r := outbox[Root(outbox, i)];
      && IsRoot(r.kind) && r.causation == r.id
      && r.order == outbox[i].order && r.merchant == outbox[i].merchant && r.correlation == outbox[i].correlation
    decreases i
  {
    if !IsRoot(outbox[i].kind) {
      RootSharesIdentity(outbox, outbox[i].causation);
    }
  }

  lemma InvIsWellCaused(s: State)
    requires EventsOk(s)
    ensures WellCaused(s.store.outbox)
  {
    forall i: nat | i < |s.store.outbox|
      ensures s.store.outbox[i].id == i
      ensures if IsRoot(s.store.outbox[i].kind) then s.store.outbox[i].causation == i
              else CausedBy(s.store.outbox, i, s.store.outbox[i].causation)
    {
      assert EventOk(s, i);
    }
  }

  /** No event has two successors. */
  ghost predicate NoForks(outbox: seq<Event>) {
    forall i, j :: 0 <= i < j < |outbox| && !IsRoot(outbox[i].kind) && !IsRoot(outbox[j].kind) ==>
      outbox[i].causation != outbox[j].causation
  }

  /** Along one order's fulfilment events the stage strictly grows. */
  ghost predicate StagesGrow(outbox: seq<Event>) {
    forall i, j :: 0 <= i < j < |outbox| && outbox[i].order == outbox[j].order && OnChain(outbox[i].kind) && OnChain(outbox[j].kind) ==>
      Stage(outbox[i].kind) < Stage(outbox[j].kind)
  }

  ghost predicate History(s: State) {
    NoForks(s.store.outbox) && StagesGrow(s.store.outbox)
  }

  lemma ForksNever(s: State, s': State)
    requires EventsOk(s) && NoForks(s.store.outbox) && Grows(s, s')
    ensures NoForks(s'.store.outbox)
  {
    var outbox, outbox' := s.store.outbox, s'.store.outbox;
    forall i, j | 0 <= i < j < |outbox'| && !IsRoot(outbox'[i].kind) && !IsRoot(outbox'[j].kind)
      ensures outbox'[i].causation != outbox'[j].causation
    {
      assert outbox'[i] == outbox[i];
      assert EventOk(s, i);
      if j < |outbox| {
        assert outbox'[j] == outbox[j];
      }
    }
  }

  /** A new fulfilment event follows the order's last one. */
  lemma NewStage(s: State, s': State, i: nat)
    requires Inv(s) && EventsOk(s') && Grows(s, s') && StagesGrow(s.store.outbox)
    requires i < |s.store.outbox| && |s'.store.outbox| == |s.store.outbox| + 1
    requires var e := s'.store.outbox[|s.store.outbox|];
      e.order == s.store.outbox[i].order && OnChain(e.kind) && OnChain(s.store.outbox[i].kind) && !IsRoot(e.kind)
    ensures Stage(s.store.outbox[i].kind) < Stage(s'.store.outbox[|s.store.outbox|].kind)
  {
    hide OrdersOk, KeysOk, StockLink, EventsOk;
    var n := |s.store.outbox|;
    var e := s'.store.outbox[n];
    var c := e.causation;
    AnEvent(s, c);
    assert s'.store.outbox[c] == s.store.outbox[c];
    assert Follows(s.store.outbox[c].kind, e.kind);
    assert OnChain(s.store.outbox[c].kind);
    assert Tail(s.store.outbox, e.order) == c;
    assert i <= c;
  }

  lemma StagesAlwaysGrow(s: State, s': State)
    requires Inv(s) && Inv(s') && Grows(s, s') && StagesGrow(s.store.outbox)
    requires |s'.store.outbox| == |s.store.outbox| + 1 && s'.store.outbox[|s.store.outbox|].kind == OrderCreated ==>
      s'.store.outbox[|s.store.outbox|].order !in s.store.orders
    ensures StagesGrow(s'.store.outbox)
  {
    hide OrdersOk, KeysOk, StockLink, EventsOk;
    var outbox, outbox' := s.store.outbox, s'.store.outbox;
    forall i, j | 0 <= i < j < |outbox'| && outbox'[i].order == outbox'[j].order && OnChain(outbox'[i].kind) && OnChain(outbox'[j].kind)
      ensures Stage(outbox'[i].kind) < Stage(outbox'[j].kind)
    {
      assert outbox'[i] == outbox[i];
      if j < |outbox| {
        assert outbox'[j] == outbox[j];
      } else {
        AnEvent(s, i);
        NewStage(s, s', i);
      }
    }
  }

  /** A new order.created event names an order that was not there. */
  lemma CreatedIsNew(s: State, a: Action)
    requires Inv(s)
    ensures var s' := Step(s, a); var n := |s.store.outbox|;
      |s'.store.outbox| == n + 1 && s'.store.outbox[n].kind == OrderCreated ==> a.Create? && s'.store.outbox[n].order !in s.store.orders
  {
    hide OrdersOk, EventsOk, KeysOk, StockLink, Evolved, ReserveAll;
    if a.Work? && IsRunning(s, a.key) {
      StepKeepsInv(s, a);
      NotCreated(s, a.key, a.answer);
    }
  }

  lemma NotCreated(s: State, key: Key, answer: Answer)
    requires IsRunning(s, key)
    ensures var s' := Step(s, Work(key, answer)); var n := |s.store.outbox|;
      |s'.store.outbox| == n + 1 ==> s'.store.outbox[n].kind != OrderCreated
  {
    hide TakeStock;
    match key.queue
    case InventoryReserve => case PaymentsAuthorize => case ShipmentsCreate => case OrdersFinalize =>
    case OrdersCancel => case OrdersCompensate => case NotificationsEmail =>
  }

  lemma {:induction false} HistoryHolds(s0: State, acts: seq<Action>)
    requires Init(s0)
    ensures History(Run(s0, acts))
  {
    hide Inv, Init;
    if |acts| > 0 {
      var m, a := Run(s0, acts[..|acts| - 1]), acts[|acts| - 1];
      HistoryHolds(s0, acts[..|acts| - 1]);
      HistoryStep(s0, acts[..|acts| - 1], a);
    } else {
      assert s0.store.outbox == [] by { EmptyStart(s0); }
    }
  }

  lemma EmptyStart(s0: State)
    requires Init(s0)
    ensures s0.store.outbox == []
  {
  }

  lemma HistoryStep(s0: State, acts: seq<Action>, a: Action)
    requires Init(s0) && History(Run(s0, acts))
    ensures History(Step(Run(s0, acts), a))
  {
    hide Run, Init, Step, OrdersOk, EventsOk, KeysOk, StockLink;
    var m := Run(s0, acts);
    ReachableInv(s0, acts);
    StepKeepsInv(m, a);
    CreatedIsNew(m, a);
    ForksNever(m, Step(m, a));
    StagesAlwaysGrow(m, Step(m, a));
  }

  /** Causation is a forest of chains. Every event traces back to an order.created or
      order.cancel_requested root with the same order, merchant and correlation; no two events share a
      cause; and per order no fulfilment stage is ever emitted twice. */
  lemma CausationIsAForest(s0: State, acts: seq<Action>)
    requires Init(s0)
    ensures var outbox := Run(s0, acts).store.outbox;
      && WellCaused(outbox) && NoForks(outbox) && StagesGrow(outbox)
      && forall i: nat :: i < |outbox| ==>
           var r := outbox[Root(outbox, i)];
           && IsRoot(r.kind) && r.order == outbox[i].order
           && r.merchant == outbox[i].merchant && r.correlation == outbox[i].correlation
  {
    hide Run, Init, OrdersOk, KeysOk, StockLink;
    var s := Run(s0, acts);
    ReachableInv(s0, acts);
    HistoryHolds(s0, acts);
    InvIsWellCaused(s);
    forall i: nat | i < |s.store.outbox|
      ensures var outbox := s.store.outbox; var r := outbox[Root(outbox, i)];
        IsRoot(r.kind) && r.order == outbox[i].order && r.merchant == outbox[i].merchant && r.correlation == outbox[i].correlation
    {
      RootSharesIdentity(s.store.outbox, i);
    }
  }
}
