/** How many deliveries a whole run of the composed system can make. */
module SystemBounds {
  import opened OrderModel
  import opened Topology
  import opened OrderStore
  import opened Fulfillment
  import opened Saga
  import opened SagaInvariant
  import opened SagaSafety
  import opened SagaAccounts
  import opened Delivery
  import opened DeliveryBounds
  import opened System

  /** Each event is relayed at most once, and no dead letter is replayed. */
  ghost predicate RelayedOnce(es: seq<Happening>) {
    && (forall i, j :: 0 <= i < j < |es| && es[i].Relay? && es[j].Relay? ==> es[i].i != es[j].i)
    && forall i :: 0 <= i < |es| && es[i].Hop? ==> !es[i].move.Replay?
  }

  /** The relayed events' allowances, over the first `n` events. */
  function Relayed(outbox: seq<Event>, retries: nat, relayed: set<nat>, n: nat): (sum: nat)
    requires n <= |outbox|
  {
    if n == 0 then 0
    else Relayed(outbox, retries, relayed, n - 1) + if n - 1 in relayed then Allowance(retries, outbox[n - 1].kind) else 0
  }

  lemma {:induction false} RelayedMore(outbox: seq<Event>, retries: nat, relayed: set<nat>, i: nat, n: nat)
    requires n <= |outbox| && i !in relayed
    ensures Relayed(outbox, retries, relayed + {i}, n)
         == Relayed(outbox, retries, relayed, n) + if i < n then Allowance(retries, outbox[i].kind) else 0
  {
    hide Allowance;
    if n > 0 {
      RelayedMore(outbox, retries, relayed, i, n - 1);
    }
  }

  lemma {:induction false} RelayedSame(outbox: seq<Event>, outbox': seq<Event>, retries: nat, relayed: set<nat>, n: nat)
    requires n <= |outbox| && outbox <= outbox'
    ensures Relayed(outbox, retries, relayed, n) == Relayed(outbox', retries, relayed, n)
  {
    hide Allowance;
    if n > 0 {
      RelayedSame(outbox, outbox', retries, relayed, n - 1);
    }
  }

  lemma {:induction false} RelayedGrows(outbox: seq<Event>, retries: nat, relayed: set<nat>, m: nat, n: nat)
    requires m <= n <= |outbox|
    ensures Relayed(outbox, retries, relayed, m) <= Relayed(outbox, retries, relayed, n)
    decreases n
  {
    hide Allowance;
    if m < n {
      RelayedGrows(outbox, retries, relayed, m, n - 1);
    }
  }

  /** A plain event has one queue, a failure event two. */
  lemma AllowanceIsPrice(kind: EventType, retries: nat)
    ensures Allowance(retries, kind) <= Price(kind, Geometric(1, retries), 2 * Geometric(2, retries))
  {
    hide Geometric;
  }

  lemma {:induction false} RelayedWithinWorth(outbox: seq<Event>, retries: nat, relayed: set<nat>, n: nat)
    requires n <= |outbox|
    ensures Relayed(outbox, retries, relayed, n) <= Worth(outbox[..n], Geometric(1, retries), 2 * Geometric(2, retries))
  {
    hide Allowance, Price, Geometric;
    if n > 0 {
      assert outbox[..n][..n - 1] == outbox[..n - 1];
      RelayedWithinWorth(outbox, retries, relayed, n - 1);
      AllowanceIsPrice(outbox[n - 1].kind, retries);
    }
  }

  /** The messages relayed so far. */
  function Sent(es: seq<Happening>): (sent: set<nat>) {
    set e | e in es && e.Relay? :: e.i
  }

  /** The deliveries made and the price of those to come are paid for by the events relayed. */
  ghost predicate Paid(s: World, sent: set<nat>) {
    Deliveries(s.broker, None) + InFlight(s.broker, false, None)
      <= Relayed(s.saga.store.outbox, s.broker.retries, sent, |s.saga.store.outbox|)
  }

  lemma PaidOn(s: World, s': World, sent: set<nat>)
    requires Paid(s, sent) && s.saga.store.outbox <= s'.saga.store.outbox && s'.broker.retries == s.broker.retries
    requires Deliveries(s'.broker, None) + InFlight(s'.broker, false, None) <= Deliveries(s.broker, None) + InFlight(s.broker, false, None)
    ensures Paid(s', sent)
  {
    hide Deliveries, InFlight;
    var n := |s.saga.store.outbox|;
    RelayedSame(s.saga.store.outbox, s'.saga.store.outbox, s.broker.retries, sent, n);
    RelayedGrows(s'.saga.store.outbox, s.broker.retries, sent, n, |s'.saga.store.outbox|);
  }

  lemma RelayIsPaid(s: World, i: nat, sent: set<nat>)
    requires Paid(s, sent) && i !in sent
    ensures Paid(Turn(s, Relay(i)), sent + {i})
  {
    hide Deliveries, InFlight, Allowance, Next;
    var n := |s.saga.store.outbox|;
    RelayedMore(s.saga.store.outbox, s.broker.retries, sent, i, n);
    if i < n {
      GrantStep(s.broker, Publish(i, s.saga.store.outbox[i].kind), None);
    }
  }

  lemma OutboxOnlyGrows(s: State, a: Action)
    requires Inv(s)
    ensures s.store.outbox <= Step(s, a).store.outbox
  {
    hide Step, Inv;
    StepKeepsInv(s, a);
  }

  lemma OtherTurnIsPaid(s: World, e: Happening, sent: set<nat>)
    requires WorldOk(s) && Paid(s, sent) && !e.Relay? && (e.Hop? ==> !e.move.Replay?)
    ensures Paid(Turn(s, e), sent)
  {
    hide WorldOk, Paid, Next, Step, Deliveries, InFlight, Inv;
    assert Inv(s.saga) by {
      SagaOk(s);
    }
    match e
    case Call(a) =>
      OutboxOnlyGrows(s.saga, a);
      PaidOn(s, Turn(s, e), sent);
    case Hop(m) =>
      if Routine(m) {
        GrantStep(s.broker, m, None);
        if m.Record? && At(s.broker, m.w, Received) {
          OutboxOnlyGrows(s.saga, Start(KeyOf(s.broker.workers[m.w].copy)));
        }
        PaidOn(s, Turn(s, e), sent);
      }
    case Handle(w, answer) =>
      if At(s.broker, w, Handling) {
        GrantStep(s.broker, Return(w, true), None);
        GrantStep(s.broker, Return(w, false), None);
        OutboxOnlyGrows(s.saga, Work(KeyOf(s.broker.workers[w].copy), answer));
        PaidOn(s, Turn(s, e), sent);
      }
  }

  lemma {:induction false} PaidRun(s0: World, es: seq<Happening>)
    requires Begins(s0) && RelayedOnce(es)
    ensures Paid(Turns(s0, es), Sent(es)) && WorldOk(Turns(s0, es)) && Turns(s0, es).broker.retries == s0.broker.retries
  {
    WorldHoldsFrom(s0, es);
    if |es| == 0 {
      assert Sent(es) == {};
    } else {
      var front, e := es[..|es| - 1], es[|es| - 1];
      hide WorldOk, Paid, Turn, Begins;
      PaidRun(s0, front);
      assert es == front + [e];
      if e.Relay? {
        assert Sent(es) == Sent(front) + {e.i};
        RelayIsPaid(Turns(s0, front), e.i, Sent(front));
      } else {
        assert Sent(es) == Sent(front);
        OtherTurnIsPaid(Turns(s0, front), e, Sent(front));
      }
      TurnKeepsRetries(Turns(s0, front), e);
    }
  }

  lemma WorldHoldsFrom(s0: World, es: seq<Happening>)
    requires Begins(s0)
    ensures WorldOk(Turns(s0, es))
  {
    hide WorldOk, Turns, Begins;
    BeginsOk(s0);
    WorldHolds(s0, es);
  }

  lemma TurnKeepsRetries(s: World, e: Happening)
    ensures Turn(s, e).broker.retries == s.broker.retries
  {
    hide Step, Fan;
  }

  /** What one turn does to the saga. */
  function ActionsOf(s: World, e: Happening): (acts: seq<Action>) {
    match e
    case Call(a) => if a.Create? || a.RequestCancel? then [a] else []
    case Hop(m) => if m.Record? && At(s.broker, m.w, Received) then [Start(KeyOf(s.broker.workers[m.w].copy))] else []
    case Handle(w, answer) => if At(s.broker, w, Handling) then [Work(KeyOf(s.broker.workers[w].copy), answer)] else []
    case _ => []
  }

  lemma SagaTurn(s: World, e: Happening) returns (acts: seq<Action>)
    ensures Run(s.saga, acts) == Turn(s, e).saga
  {
    hide Step;
    acts := if Turn(s, e).saga == s.saga then [] else ActionsOf(s, e);
    if acts != [] {
      assert acts[..0] == [];
    }
  }

  /** The saga half of a composed run is a run of the saga. */
  lemma {:induction false} SagaRunOf(s0: World, es: seq<Happening>) returns (acts: seq<Action>)
    ensures Run(s0.saga, acts) == Turns(s0, es).saga
  {
    hide Run, Turn;
    if |es| == 0 {
      acts := [];
      RunNothing(s0.saga);
    } else {
      acts := SagaRunOf(s0, es[..|es| - 1]);
      var more := SagaTurn(Turns(s0, es[..|es| - 1]), es[|es| - 1]);
      RunConcat(s0.saga, acts, more);
      acts := acts + more;
    }
  }

  /** If each event is relayed once and no dead letter is replayed, a run of the composed system with M
      retries makes at most max(3a + f, 5a) deliveries per order and 2a per accepted cancellation, where
      a = M + 1 and f = 2 (1 + 4 + ... + 4^M), whatever the handlers return. */
  lemma DeliveriesPerOrder(s0: World, es: seq<Happening>)
    requires Begins(s0) && RelayedOnce(es)
    ensures var s, a, f := Turns(s0, es), Geometric(1, s0.broker.retries), 2 * Geometric(2, s0.broker.retries);
      Deliveries(s.broker, None)
        <= PerOrder(a, f) * |s.saga.store.orders| + 2 * a * CountKind(s.saga.store.outbox, CancelRequested)
  {
    var s := Turns(s0, es);
    PaidRun(s0, es);
    var acts := SagaRunOf(s0, es);
    hide Turns, Run, WorldOk, Worth, Geometric, PerOrder, Relayed, Deliveries, InFlight;
    var outbox := s.saga.store.outbox;
    RelayedWithinWorth(outbox, s0.broker.retries, Sent(es), |outbox|);
    assert outbox[..|outbox|] == outbox;
    OutboxIsWorthAtMost(s0.saga, acts, Geometric(1, s0.broker.retries), 2 * Geometric(2, s0.broker.retries));
  }

  /** With the default three retries: 182 deliveries per order and 8 per accepted cancellation. */
  lemma DefaultDeliveriesPerOrder(s0: World, es: seq<Happening>)
    requires Begins(s0) && RelayedOnce(es) && s0.broker.retries == DEFAULT_MAX_RETRIES
    ensures var s := Turns(s0, es);
      Deliveries(s.broker, None) <= 182 * |s.saga.store.orders| + 8 * CountKind(s.saga.store.outbox, CancelRequested)
  {
    hide Turns, Deliveries;
    DeliveriesPerOrder(s0, es);
    DefaultSums();
  }

  lemma DefaultSums()
    ensures Geometric(1, 3) == 4 && Geometric(2, 3) == 85
  {
    assert Geometric(1, 2) == 3;
    assert Geometric(2, 1) == 5;
    assert Geometric(2, 2) == 21;
  }
}
