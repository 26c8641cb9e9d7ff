/** From a create command to what is stored, reserved and charged: the lines, the terms and the amount. */
module Amounts {
  import opened OrderModel
  import opened OrderStore
  import opened Fulfillment
  import opened Saga
  import opened SagaInvariant
  import opened SagaSteps
  import opened SagaSafety
  import opened SagaTheorems
  import opened SagaAccounts
  import opened SagaAnswers
  import opened OrderService
  import opened Text

  /** The order's total, and the amount in each of its events that names one. */
  ghost predicate Charges(s: State, id: string, amount: int) {
    && id in s.store.orders
    && s.store.orders[id].totals.total == amount
    && forall i: nat :: i < |s.store.outbox| && s.store.outbox[i].order == id && NamesAmount(s.store.outbox[i]) ==>
        s.store.outbox[i].amount == amount
  }

  predicate NamesAmount(e: Event) {
    e.kind == OrderCreated || e.kind == PaymentAuthorized
  }

  lemma CreatedAsDrafted(s: State, merchant: string, key: string, order: Order, correlation: string)
    requires NewOrder(s.store, merchant, order)
    requires order.id in Step(s, Create(merchant, key, order, correlation)).store.orders
    ensures Step(s, Create(merchant, key, order, correlation)).store.orders[order.id] == order
  {
    hide RowsAccepted, LinesSound;
  }

  /** If the lines and the shipping of an accepted command fit in 64 bits, their exact sum is the total of
      the order it creates, in every later state of every run, and the amount of its order.created and
      payment.authorized events. */
  lemma ChargedIsTheSum(
    s0: State, acts: seq<Action>, more: seq<Action>, merchant: string, key: string, c: Command, id: string, correlation: string)
    requires Init(s0) && Acceptable(merchant, key, c) && Exact(c.lines) + SHIPPING < TWO_63
    requires id != "" && id !in Run(s0, acts).store.orders
    requires id in Step(Run(s0, acts), Create(merchant, key, Drafted(merchant, c, id), correlation)).store.orders
    ensures Charges(Run(Step(Run(s0, acts), Create(merchant, key, Drafted(merchant, c, id), correlation)), more), id,
                    Exact(c.lines) + SHIPPING)
  {
    hide Drafted, Acceptable, Init, Inv, Step, Run, NewOrder, After, AmountsRight, Charges;
    var create := Create(merchant, key, Drafted(merchant, c, id), correlation);
    CreatedTotal(Run(s0, acts), merchant, key, c, id, correlation);
    RunStep(s0, acts, create);
    RunConcat(s0, acts + [create], more);
    ReachableInv(s0, acts + [create]);
    RunGoesForward(Run(s0, acts + [create]), more);
    AmountsHold(s0, acts + [create] + more);
    TotalStays(Run(s0, acts + [create]), Run(Run(s0, acts + [create]), more), id);
  }

  lemma CreatedTotal(s: State, merchant: string, key: string, c: Command, id: string, correlation: string)
    requires Acceptable(merchant, key, c) && Exact(c.lines) + SHIPPING < TWO_63 && id != "" && id !in s.store.orders
    requires id in Step(s, Create(merchant, key, Drafted(merchant, c, id), correlation)).store.orders
    ensures Step(s, Create(merchant, key, Drafted(merchant, c, id), correlation)).store.orders[id].totals.total
         == Exact(c.lines) + SHIPPING
  {
    hide Step, Acceptable, NewOrder;
    AcceptedCommandIsNew(s.store, merchant, key, c, id);
    TotalIsExactWhen(merchant, key, c, id);
    CreatedAsDrafted(s, merchant, key, Drafted(merchant, c, id), correlation);
  }

  lemma TotalStays(s: State, s': State, id: string)
    requires After(s, s') && AmountsRight(s') && id in s.store.orders
    ensures Charges(s', id, s.store.orders[id].totals.total)
  {
    assert OrderAfter(s, s', id);
  }

  /** The order holds the command's lines, and its other terms. */
  ghost predicate Stored(s: State, id: string, merchant: string, c: Command) {
    && id in s.store.orders
    && var o := s.store.orders[id];
    && o.id == id && o.merchant == merchant && o.external == c.external && o.currency == c.currency
    && AsOrdered(o.items, c.lines) && Value(o.items) == Exact(c.lines)
  }

  lemma TermsAreStored(a: Order, b: Order, lines: seq<Line>)
    requires SameTerms(a, b) && AsOrdered(a.items, lines)
    ensures AsOrdered(b.items, lines)
  {
    forall i | 0 <= i < |lines|
      ensures b.items[i].sku == lines[i].sku && b.items[i].quantity == lines[i].quantity && b.items[i].unitPrice == lines[i].unitPrice
    {
      assert Snapshot(a.items[i]) == Snapshot(b.items[i]);
    }
  }

  /** In every later state of every run, the order an accepted command created has the command's external
      ID and currency, and line for line its SKUs, quantities and prices; so what is reserved and shipped is
      what was ordered, and it is worth what is charged for it. */
  lemma StoredAsOrdered(
    s0: State, acts: seq<Action>, more: seq<Action>, merchant: string, key: string, c: Command, id: string, correlation: string)
    requires Init(s0) && Acceptable(merchant, key, c) && id != "" && id !in Run(s0, acts).store.orders
    requires id in Step(Run(s0, acts), Create(merchant, key, Drafted(merchant, c, id), correlation)).store.orders
    ensures Stored(Run(Step(Run(s0, acts), Create(merchant, key, Drafted(merchant, c, id), correlation)), more), id, merchant, c)
  {
    var draft := Drafted(merchant, c, id);
    var create := Create(merchant, key, draft, correlation);
    hide Drafted, Acceptable, Init, Inv, Step, Run, NewOrder, After, Value, Exact;
    AcceptedCommandIsNew(Run(s0, acts).store, merchant, key, c, id);
    CreatedAsDrafted(Run(s0, acts), merchant, key, draft, correlation);
    RunStep(s0, acts, create);
    ReachableInv(s0, acts + [create]);
    var s := Run(s0, acts + [create]);
    RunGoesForward(s, more);
    TermsKept(s, Run(s, more), id);
    TermsAreStored(draft, Run(s, more).store.orders[id], c.lines);
    SameValue(Run(s, more).store.orders[id].items, c.lines);
  }

  lemma TermsKept(s: State, s': State, id: string)
    requires After(s, s') && id in s.store.orders
    ensures id in s'.store.orders && SameTerms(s.store.orders[id], s'.store.orders[id])
  {
    assert OrderAfter(s, s', id);
  }

  /** Until a payment is authorized it is with the provider the order names. */
  ghost predicate WithProvider(order: Order, provider: string) {
    && order.payment.Some?
    && (order.payment.value.status == PendingAuthorization || order.payment.value.status == AuthorizationFailed ==>
          order.payment.value.provider == provider)
  }

  lemma RecordsKeepProvider(x: Order, y: Order, emitted: Option<EventType>, pc: Pc, provider: string)
    requires RecordsAs(x, y, emitted, pc) && WithProvider(x, provider) && provider != ""
    requires emitted == Some(PaymentFailed) ==> PaymentIs(x, PendingAuthorization)
    ensures WithProvider(y, provider)
  {
  }

  lemma FailedWhilePending(s: State, key: Key, answer: Answer)
    requires Ready(s, key)
    requires var r := Advance(key.queue, s.store, s.runs[key].pc, s.store.outbox[key.message], answer).0;
      r.outbox != s.store.outbox && Emitted(s.store, r) == Some(PaymentFailed)
    ensures s.store.outbox[key.message].order in s.store.orders
    ensures PaymentIs(s.store.orders[s.store.outbox[key.message].order], PendingAuthorization)
  {
    hide OrdersOk, EventsOk, KeysOk, StockLink, LinesSound;
    EmissionSays(key.queue, s.store, s.runs[key].pc, s.store.outbox[key.message], answer);
    hide Advance;
    Context(s, key);
  }

  lemma WorkKeepsProvider(s: State, key: Key, answer: Answer, id: string, provider: string)
    requires Ready(s, key) && id in s.store.orders && WithProvider(s.store.orders[id], provider) && provider != ""
    ensures var s' := Step(s, Work(key, answer)).store; id in s'.orders && WithProvider(s'.orders[id], provider)
  {
    hide OrdersOk, KeysOk, StockLink, EventsOk, WithProvider, RecordsAs, Advance;
    AnEvent(s, key.message);
    var event, pc := s.store.outbox[key.message], s.runs[key].pc;
    HandlerRecords(key.queue, s.store, pc, event, answer);
    var r := Advance(key.queue, s.store, pc, event, answer).0;
    if id == event.order {
      if Emitted(s.store, r) == Some(PaymentFailed) {
        FailedWhilePending(s, key, answer);
      }
      RecordsKeepProvider(s.store.orders[id], r.orders[id], Emitted(s.store, r), pc, provider);
    }
  }

  lemma OtherKeepsProvider(s: State, a: Action, id: string, provider: string)
    requires id in s.store.orders && WithProvider(s.store.orders[id], provider) && !(a.Work? && IsRunning(s, a.key))
    ensures id in Step(s, a).store.orders && WithProvider(Step(s, a).store.orders[id], provider)
  {
    hide RowsAccepted, LinesSound, AllItems, CanTransitionOrderStatus;
  }

  lemma ProviderStep(s: State, a: Action, id: string, provider: string)
    requires Inv(s) && id in s.store.orders && WithProvider(s.store.orders[id], provider) && provider != ""
    ensures id in Step(s, a).store.orders && WithProvider(Step(s, a).store.orders[id], provider)
  {
    hide Inv, Step, WithProvider;
    if a.Work? && IsRunning(s, a.key) {
      WorkKeepsProvider(s, a.key, a.answer, id, provider);
    } else {
      OtherKeepsProvider(s, a, id, provider);
    }
  }

  lemma {:induction false} ProviderStays(s: State, acts: seq<Action>, id: string, provider: string)
    requires Inv(s) && id in s.store.orders && WithProvider(s.store.orders[id], provider) && provider != ""
    ensures id in Run(s, acts).store.orders && WithProvider(Run(s, acts).store.orders[id], provider)
  {
    if |acts| > 0 {
      hide Inv, Step, WithProvider;
      ProviderStays(s, acts[..|acts| - 1], id, provider);
      RunKeepsInv(s, acts[..|acts| - 1]);
      ProviderStep(Run(s, acts[..|acts| - 1]), acts[|acts| - 1], id, provider);
    }
  }

  /** In every later state, the payment of an accepted command's order is with the provider the command
      names, as long as it is pending or failed. */
  lemma PaidWithTheProviderNamed(
    s0: State, acts: seq<Action>, more: seq<Action>, merchant: string, key: string, c: Command, id: string, correlation: string)
    requires Init(s0) && Acceptable(merchant, key, c) && id != "" && id !in Run(s0, acts).store.orders
    requires id in Step(Run(s0, acts), Create(merchant, key, Drafted(merchant, c, id), correlation)).store.orders
    ensures var s := Run(Step(Run(s0, acts), Create(merchant, key, Drafted(merchant, c, id), correlation)), more);
      id in s.store.orders && WithProvider(s.store.orders[id], c.provider)
  {
    var draft := Drafted(merchant, c, id);
    var create := Create(merchant, key, draft, correlation);
    assert c.provider != "" by {
      assert Blank("");
    }
    hide Drafted, Acceptable, Init, Inv, Step, Run, NewOrder;
    AcceptedCommandIsNew(Run(s0, acts).store, merchant, key, c, id);
    CreatedAsDrafted(Run(s0, acts), merchant, key, draft, correlation);
    RunStep(s0, acts, create);
    ReachableInv(s0, acts + [create]);
    ProviderStays(Run(s0, acts + [create]), more, id, c.provider);
  }

  /** So the payment of such an order can always be recorded. */
  lemma ExactTotalsArePayable(s: State, id: string, c: Command)
    requires Charges(s, id, Exact(c.lines) + SHIPPING) && forall i :: 0 <= i < |c.lines| ==> Sound(c, c.lines[i])
    ensures !Unpayable(s.store, id)
  {
    ExactIsNotNegative(c, |c.lines|);
    assert c.lines[..|c.lines|] == c.lines;
  }

  /** A payment worker of that order that has asked the provider asked for this amount. */
  lemma AskedIsTheTotal(s0: State, acts: seq<Action>, id: string, amount: int, key: Key)
    requires Init(s0) && Charges(Run(s0, acts), id, amount)
    requires IsRunning(Run(s0, acts), key) && Run(s0, acts).runs[key].pc.Paying?
    requires Run(s0, acts).store.outbox[key.message].order == id
    ensures Run(s0, acts).runs[key].pc.amount == amount
  {
    hide Run, Init;
    MoneyIsTheTotal(s0, acts, key);
  }
}
