/** The saga and its delivery put together: what a handler returns decides what the worker does with
    its delivery, and what the inbox lets through decides which handlers run. No infrastructure
    errors here, so the one thing that can go wrong is a handler refusing its event. */
module System {
  import opened OrderModel
  import opened Topology
  import opened OrderStore
  import opened Fulfillment
  import opened Saga
  import opened SagaInvariant
  import opened SagaSafety
  import opened SagaTheorems
  import opened Delivery
  import opened DeliveryLaws

  datatype World = World(saga: State, broker: Broker)

  datatype Happening =
    | Call(action: Action)                 // an API call
    | Relay(i: nat)                        // the relay publishes an outbox event
    | Hop(move: Move)                      // the broker or a worker goes on
    | Handle(w: nat, answer: Answer)       // a handler takes one step

  function KeyOf(c: Copy): (k: Key) {
    Key(c.queue, c.message)
  }

  /** Moves that need no infrastructure error and no handler. */
  predicate Routine(m: Move) {
    match m
    case Deliver(_) => true
    case Record(_) => true
    case Free(_, ok) => ok
    case Resolve(_, accepted) => accepted
    case Expire(_) => true
    case Replay(_) => true
    case _ => false
  }

  ghost function HopStep(s: World, m: Move): (s': World) {
    var b' := Next(s.broker, m);
    if m.Record? && At(b', m.w, Handling) && At(s.broker, m.w, Received)
    then World(Step(s.saga, Start(KeyOf(s.broker.workers[m.w].copy))), b')
    else World(s.saga, b')
  }

  ghost function HandleStep(s: World, w: nat, answer: Answer): (s': World)
    requires At(s.broker, w, Handling)
  {
    var key := KeyOf(s.broker.workers[w].copy);
    var saga' := Step(s.saga, Work(key, answer));
    if IsDone(saga', key) then World(saga', Next(s.broker, Return(w, true)))
    else if key !in saga'.runs then World(saga', Next(s.broker, Return(w, false)))
    else World(saga', s.broker)
  }

  ghost function Turn(s: World, e: Happening): (s': World) {
    match e
    case Call(a) => if a.Create? || a.RequestCancel? then s.(saga := Step(s.saga, a)) else s
    case Relay(i) =>
      if i < |s.saga.store.outbox| then s.(broker := Next(s.broker, Publish(i, s.saga.store.outbox[i].kind))) else s
    case Hop(m) => if Routine(m) then HopStep(s, m) else s
    case Handle(w, answer) => if At(s.broker, w, Handling) then HandleStep(s, w, answer) else s
  }

  ghost function Turns(s: World, es: seq<Happening>): (s': World) {
    if |es| == 0 then s else Turn(Turns(s, es[..|es| - 1]), es[|es| - 1])
  }

  // ------------------------------------------------------------ how the two halves agree

  ghost predicate Genuine(s: World, c: Copy) {
    c.message < |s.saga.store.outbox| && c.kind == s.saga.store.outbox[c.message].kind && c.queue in QueuesFor(c.kind)
  }

  ghost predicate CopiesGenuine(s: World) {
    && (forall c :: c in s.broker.main ==> Genuine(s, c))
    && (forall c :: c in s.broker.retry ==> Genuine(s, c))
    && (forall c :: c in s.broker.dlq ==> Genuine(s, c))
    && (forall w :: 0 <= w < |s.broker.workers| ==> Genuine(s, s.broker.workers[w].copy))
    && (forall i :: 0 <= i < |s.broker.published| ==>
          s.broker.published[i].message < |s.saga.store.outbox|
          && s.broker.published[i].kind == s.saga.store.outbox[s.broker.published[i].message].kind)
  }

  function UseOf(k: Key): (use: Consumption) {
    Consumption(k.queue, k.message)
  }

  ghost predicate WorkersAgree(s: World) {
    forall w :: 0 <= w < |s.broker.workers| ==>
      && (s.broker.workers[w].phase == Handling ==> IsRunning(s.saga, KeyOf(s.broker.workers[w].copy)))
      && (s.broker.workers[w].phase == Failed ==> KeyOf(s.broker.workers[w].copy) !in s.saga.runs)
      && (s.broker.workers[w].phase == Failed || s.broker.workers[w].phase == Released ==>
            Use(s.broker.workers[w].copy) in s.broker.losses)
  }

  ghost predicate LogsAgree(s: World) {
    && (forall k :: k in s.saga.runs ==> UseOf(k) in s.broker.inbox)
    && (forall use :: use in s.broker.wins ==> IsDone(s.saga, Key(use.queue, use.message)))
    && (forall use :: use in s.broker.losses ==> Key(use.queue, use.message) in s.saga.refused)
  }

  /** Every bound queue of a published event has succeeded, was refused, or has the event before it. */
  ghost predicate Due(b: Broker, use: Consumption) {
    use in b.wins || use in b.losses || Place(b.main, use) || Busy(b.workers, use)
  }

  ghost predicate AllDue(b: Broker) {
    forall i, q :: 0 <= i < |b.published| && q in QueuesFor(b.published[i].kind) ==>
      Due(b, Consumption(q, b.published[i].message))
  }

  ghost predicate WorldOk(s: World) {
    && Inv(s.saga) && Exclusive(s.broker) && InboxBacked(s.broker)
    && CopiesGenuine(s) && WorkersAgree(s) && LogsAgree(s) && AllDue(s.broker)
  }

  // ------------------------------------------------------------ API calls and the relay

  /** The saga half moved on without touching what the broker half knows. */
  ghost predicate SagaAhead(s: State, s': State) {
    s.store.outbox <= s'.store.outbox && s'.runs == s.runs && s.refused <= s'.refused
  }

  lemma SagaAheadKeeps(s: World, saga': State)
    requires WorldOk(s) && Inv(saga') && SagaAhead(s.saga, saga')
    ensures WorldOk(World(saga', s.broker))
  {
    hide Inv, Exclusive, InboxBacked, AllDue;
  }

  lemma CallKeepsRuns(s: State, a: Action)
    requires a.Create? || a.RequestCancel?
    ensures Step(s, a).runs == s.runs && Step(s, a).refused == s.refused
  {
    hide NewOrder;
  }

  lemma CallTurn(s: World, a: Action)
    requires WorldOk(s) && (a.Create? || a.RequestCancel?)
    ensures WorldOk(Turn(s, Call(a)))
  {
    hide Inv, WorldOk, Step;
    SagaOk(s);
    StepKeepsInv(s.saga, a);
    CallKeepsRuns(s.saga, a);
    GrowsOutbox(s.saga, Step(s.saga, a));
    SagaAheadKeeps(s, Step(s.saga, a));
  }

  lemma SagaOk(s: World)
    requires WorldOk(s)
    ensures Inv(s.saga) && Exclusive(s.broker) && InboxBacked(s.broker)
    ensures CopiesGenuine(s) && WorkersAgree(s) && LogsAgree(s) && AllDue(s.broker)
  {
  }

  lemma GrowsOutbox(s: State, s': State)
    requires Evolved(s, s')
    ensures s.store.outbox <= s'.store.outbox
  {
  }

  lemma FanGenuine(s: World, message: nat, attempt: nat)
    requires message < |s.saga.store.outbox|
    ensures forall c :: c in Fan(message, s.saga.store.outbox[message].kind, attempt) ==> Genuine(s, c)
  {
    var kind := s.saga.store.outbox[message].kind;
    forall c | c in Fan(message, kind, attempt) ensures Genuine(s, c) {
      var i :| 0 <= i < |QueuesFor(kind)| && Fan(message, kind, attempt)[i] == c;
    }
  }

  lemma DueStays(b: Broker, more: seq<Copy>, b': Broker, use: Consumption)
    requires Due(b, use) && b'.main == b.main + more && b'.wins == b.wins && b'.losses == b.losses && b'.workers == b.workers
    ensures Due(b', use)
  {
    if Place(b.main, use) {
      PlaceGrows(b.main, more, use);
    }
  }

  lemma RelayTurn(s: World, i: nat)
    requires WorldOk(s) && i < |s.saga.store.outbox|
    ensures WorldOk(Turn(s, Relay(i)))
  {
    hide Inv, Exclusive, InboxBacked, Fan, QueuesFor, Due;
    var b, b' := s.broker, Turn(s, Relay(i)).broker;
    var kind := s.saga.store.outbox[i].kind;
    ExclusiveStep(b, Publish(i, kind));
    InboxBackedStep(b, Publish(i, kind));
    FanGenuine(s, i, 0);
    forall j, q | 0 <= j < |b'.published| && q in QueuesFor(b'.published[j].kind)
      ensures Due(b', Consumption(q, b'.published[j].message))
    {
      if j < |b.published| {
        DueStays(b, Fan(i, kind, 0), b', Consumption(q, b.published[j].message));
      } else {
        DueNow(b, i, kind, q);
      }
    }
  }

  lemma DueNow(b: Broker, message: nat, kind: EventType, q: Queue)
    requires q in QueuesFor(kind)
    ensures Due(Next(b, Publish(message, kind)), Consumption(q, message))
  {
    FanReaches(Copy(q, message, kind, 0), 0, b.main);
  }

  // ------------------------------------------------------------ the broker and the workers

  lemma TakeGenuine(s: World, copies: seq<Copy>, i: nat)
    requires i < |copies| && forall c :: c in copies ==> Genuine(s, c)
    ensures Genuine(s, copies[i]) && forall c :: c in Without(copies, i) ==> Genuine(s, c)
  {
    assert copies[i] in copies;
  }

  lemma QueueHopCopies(s: World, m: Move)
    requires CopiesGenuine(s) && (m.Deliver? || m.Expire? || m.Replay?)
    ensures CopiesGenuine(World(s.saga, Next(s.broker, m)))
  {
    hide Fan, QueuesFor, Without;
    var b := s.broker;
    match m
    case Deliver(i) =>
      if i < |b.main| {
        TakeGenuine(s, b.main, i);
      }
    case Expire(i) =>
      if i < |b.retry| {
        TakeGenuine(s, b.retry, i);
        FanGenuine(s, b.retry[i].message, b.retry[i].attempt);
      }
    case Replay(i) =>
      if i < |b.dlq| {
        TakeGenuine(s, b.dlq, i);
        FanGenuine(s, b.dlq[i].message, b.dlq[i].attempt);
      }
  }

  lemma HopCopies(s: World, m: Move, saga': State)
    requires CopiesGenuine(s) && Routine(m) && saga'.store.outbox == s.saga.store.outbox
    ensures CopiesGenuine(World(saga', Next(s.broker, m)))
  {
    hide Fan, QueuesFor;
    if m.Deliver? || m.Expire? || m.Replay? {
      QueueHopCopies(s, m);
    } else if m.w < |s.broker.workers| {
      var c := s.broker.workers[m.w].copy;
      assert Genuine(s, c);
      FanGenuine(s, c.message, c.attempt);
      FanGenuine(s, c.message, c.attempt + 1);
    }
  }

  lemma HopDue(b: Broker, m: Move, use: Consumption)
    requires Routine(m) && Due(b, use) && InboxBacked(b)
    requires forall w :: 0 <= w < |b.workers| && (b.workers[w].phase == Failed || b.workers[w].phase == Released) ==>
      Use(b.workers[w].copy) in b.losses
    ensures Due(Next(b, m), use)
  {
    hide Fan, QueuesFor;
    var b' := Next(b, m);
    if use !in b.wins && use !in b.losses {
      if Busy(b.workers, use) {
        var i :| 0 <= i < |b.workers| && Open(b.workers[i]) && Use(b.workers[i].copy) == use;
        if Open(b'.workers[i]) {
          assert Use(b'.workers[i].copy) == use;
        } else {
          assert m.Record? && use in b.inbox;
          var j :| 0 <= j < |b.workers| && Active(b.workers[j]) && Use(b.workers[j].copy) == use;
          assert b'.workers[j] == b.workers[j];
        }
      } else {
        MainDue(b, m, use);
      }
    }
  }

  lemma MainDue(b: Broker, m: Move, use: Consumption)
    requires Routine(m) && Place(b.main, use)
    ensures Due(Next(b, m), use)
  {
    hide Fan, QueuesFor;
    var b' := Next(b, m);
    var c :| c in b.main && Use(c) == use;
    if m.Deliver? && m.i < |b.main| {
      WithoutHas(b.main, m.i, c);
      if c == b.main[m.i] {
        assert Open(b'.workers[|b.workers|]) && Use(b'.workers[|b.workers|].copy) == use;
      }
    } else {
      assert c in b'.main;
    }
  }

  lemma HopAllDue(s: World, m: Move)
    requires AllDue(s.broker) && Routine(m) && InboxBacked(s.broker) && WorkersAgree(s)
    ensures AllDue(Next(s.broker, m))
  {
    hide Fan, QueuesFor, Due, InboxBacked;
    var b, b' := s.broker, Next(s.broker, m);
    forall i, q | 0 <= i < |b'.published| && q in QueuesFor(b'.published[i].kind)
      ensures Due(b', Consumption(q, b'.published[i].message))
    {
      assert b'.published == b.published;
      HopDue(b, m, Consumption(q, b.published[i].message));
    }
  }

  /** A delivery the inbox lets through starts its handler. */
  lemma StartIsEnabled(s: World, w: nat)
    requires WorldOk(s) && At(s.broker, w, Received) && Use(s.broker.workers[w].copy) !in s.broker.inbox
    ensures var key := KeyOf(s.broker.workers[w].copy);
      && key !in s.saga.runs
      && Step(s.saga, Start(key)) == s.saga.(runs := s.saga.runs[key := Running(Begin)])
  {
    hide Inv, Exclusive, InboxBacked, AllDue;
    var c := s.broker.workers[w].copy;
    assert Genuine(s, c);
    RoutingIsTheBindingTable(c.kind, c.queue);
    assert KeyOf(c) in s.saga.runs ==> UseOf(KeyOf(c)) in s.broker.inbox;
  }

  lemma RecordTurn(s: World, w: nat)
    requires WorldOk(s) && At(s.broker, w, Received) && Use(s.broker.workers[w].copy) !in s.broker.inbox
    ensures var s' := Turn(s, Hop(Record(w))); Inv(s'.saga) && WorkersAgree(s') && LogsAgree(s')
  {
    hide Inv, AllDue, CopiesGenuine, OneAtATime, NoRepeat, InboxBacked;
    var key := KeyOf(s.broker.workers[w].copy);
    StartIsEnabled(s, w);
    StepKeepsInv(s.saga, Start(key));
    assert Genuine(s, s.broker.workers[w].copy) by { SagaOk(s); AWorker(s, w); }
  }

  lemma AWorker(s: World, w: nat)
    requires CopiesGenuine(s) && w < |s.broker.workers|
    ensures Genuine(s, s.broker.workers[w].copy)
  {
  }

  lemma QuietHop(s: World, m: Move)
    requires WorldOk(s) && Routine(m)
    requires m.Record? && At(s.broker, m.w, Received) ==> Use(s.broker.workers[m.w].copy) in s.broker.inbox
    ensures var s' := Turn(s, Hop(m)); s'.saga == s.saga && WorkersAgree(s') && LogsAgree(s')
  {
    hide Inv, AllDue, CopiesGenuine, OneAtATime, NoRepeat, InboxBacked, Fan, QueuesFor;
  }

  lemma HopTurn(s: World, m: Move)
    requires WorldOk(s) && Routine(m)
    ensures WorldOk(Turn(s, Hop(m)))
  {
    hide Inv, AllDue, CopiesGenuine, Exclusive, InboxBacked, Fan, QueuesFor, WorkersAgree, LogsAgree, Next, Step;
    ExclusiveStep(s.broker, m);
    InboxBackedStep(s.broker, m);
    HopAllDue(s, m);
    var s' := Turn(s, Hop(m));
    if m.Record? && At(s.broker, m.w, Received) && Use(s.broker.workers[m.w].copy) !in s.broker.inbox {
      RecordTurn(s, m.w);
      StartIsEnabled(s, m.w);
      NextIsHandling(s.broker, m.w);
    } else {
      QuietHop(s, m);
    }
    HopCopies(s, m, s'.saga);
  }

  lemma NextIsHandling(b: Broker, w: nat)
    requires At(b, w, Received) && Use(b.workers[w].copy) !in b.inbox
    ensures At(Next(b, Record(w)), w, Handling)
  {
  }

  // ------------------------------------------------------------ a handler's step

  /** A handler's step touches its own key only, and leaves it running, done, or refused and free. */
  lemma WorkMovesOwnKey(s: State, key: Key, answer: Answer)
    requires IsRunning(s, key)
    ensures var s' := Step(s, Work(key, answer));
      && (forall k :: k != key ==> (k in s'.runs <==> k in s.runs) && (k in s.runs ==> s'.runs[k] == s.runs[k]))
      && s.refused <= s'.refused
      && (key !in s'.runs ==> key in s'.refused)
  {
    hide Advance;
  }

  lemma HandleAgrees(s: World, w: nat, answer: Answer)
    requires WorldOk(s) && At(s.broker, w, Handling)
    requires Evolved(s.saga, Step(s.saga, Work(KeyOf(s.broker.workers[w].copy), answer)))
    ensures var s' := Turn(s, Handle(w, answer)); WorkersAgree(s') && LogsAgree(s') && CopiesGenuine(s')
  {
    hide Inv, AllDue, NoRepeat, InboxBacked, Fan, QueuesFor, Step;
    var key := KeyOf(s.broker.workers[w].copy);
    WorkMovesOwnKey(s.saga, key, answer);
    var s' := Turn(s, Handle(w, answer));
    forall i | 0 <= i < |s'.broker.workers| && i != w && Active(s.broker.workers[i])
      ensures KeyOf(s.broker.workers[i].copy) != key
    {
      assert Use(s.broker.workers[i].copy) != Use(s.broker.workers[w].copy);
    }
  }

  lemma ReturnDue(b: Broker, w: nat, ok: bool)
    requires AllDue(b) && At(b, w, Handling)
    ensures AllDue(Next(b, Return(w, ok)))
  {
    hide QueuesFor;
    var b' := Next(b, Return(w, ok));
    forall i, q | 0 <= i < |b'.published| && q in QueuesFor(b'.published[i].kind)
      ensures Due(b', Consumption(q, b'.published[i].message))
    {
      var use := Consumption(q, b.published[i].message);
      assert Due(b, use);
      if use !in b.wins && use !in b.losses && Busy(b.workers, use) {
        var j :| 0 <= j < |b.workers| && Open(b.workers[j]) && Use(b.workers[j].copy) == use;
        if j != w {
          assert b'.workers[j] == b.workers[j];
        } else {
          assert use == Use(b.workers[w].copy);
        }
      }
    }
  }

  lemma HandleTurn(s: World, w: nat, answer: Answer)
    requires WorldOk(s) && At(s.broker, w, Handling)
    ensures WorldOk(Turn(s, Handle(w, answer)))
  {
    hide Inv, Evolved, AllDue, CopiesGenuine, Exclusive, InboxBacked, WorkersAgree, LogsAgree, Next, Step;
    var key := KeyOf(s.broker.workers[w].copy);
    StepKeepsInv(s.saga, Work(key, answer));
    HandleAgrees(s, w, answer);
    ExclusiveStep(s.broker, Return(w, true));
    ExclusiveStep(s.broker, Return(w, false));
    InboxBackedStep(s.broker, Return(w, true));
    InboxBackedStep(s.broker, Return(w, false));
    ReturnDue(s.broker, w, true);
    ReturnDue(s.broker, w, false);
  }

  // ------------------------------------------------------------ runs

  lemma {:induction false} WorldHolds(s: World, es: seq<Happening>)
    requires WorldOk(s)
    ensures WorldOk(Turns(s, es))
  {
    hide WorldOk, HandleStep, HopStep, Step, Next;
    if |es| > 0 {
      var m, e := Turns(s, es[..|es| - 1]), es[|es| - 1];
      WorldHolds(s, es[..|es| - 1]);
      match e
      case Call(a) => if a.Create? || a.RequestCancel? { CallTurn(m, a); }
      case Relay(i) => if i < |m.saga.store.outbox| { RelayTurn(m, i); }
      case Hop(move) => if Routine(move) { HopTurn(m, move); }
      case Handle(w, answer) => if At(m.broker, w, Handling) { HandleTurn(m, w, answer); }
    }
  }

  ghost predicate Begins(s: World) {
    Init(s.saga) && Idle(s.broker)
  }

  lemma BeginsOk(s: World)
    requires Begins(s)
    ensures WorldOk(s)
  {
    InitInv(s.saga);
    hide Inv, Init;
    assert s.saga.runs == map[] by { EmptyRuns(s.saga); }
  }

  lemma EmptyRuns(s: State)
    requires Init(s)
    ensures s.runs == map[]
  {
  }

  /** Every outbox event was published, no main queue holds anything and no worker is busy. What
      retry and dead-letter queues hold does not matter. */
  ghost predicate Drained(s: World) {
    && (forall i: nat :: i < |s.saga.store.outbox| ==> Publication(i, s.saga.store.outbox[i].kind) in s.broker.published)
    && s.broker.main == []
    && forall w :: 0 <= w < |s.broker.workers| ==> !Open(s.broker.workers[w])
  }

  lemma DrainedIsSettled(s: World)
    requires WorldOk(s) && Drained(s)
    ensures Settled(s.saga)
  {
    hide Inv, Exclusive, InboxBacked, CopiesGenuine, WorkersAgree, QueuesFor, Binds;
    forall i: nat, q: Queue | i < |s.saga.store.outbox| && Binds(q, s.saga.store.outbox[i].kind)
      ensures IsDone(s.saga, Key(q, i)) || Key(q, i) in s.saga.refused
    {
      var kind := s.saga.store.outbox[i].kind;
      RoutingIsTheBindingTable(kind, q);
      var j :| 0 <= j < |s.broker.published| && s.broker.published[j] == Publication(i, kind);
      assert Due(s.broker, Consumption(q, i));
    }
  }

  /** Once everything is published and drained, an order is completed, cancelled, failed or in manual
      review if and only if none of the two exceptions of Quiescence holds of it. */
  lemma DrainedSystemIsQuiescent(s0: World, es: seq<Happening>, id: string)
    requires Begins(s0) && Drained(Turns(s0, es)) && id in Turns(s0, es).saga.store.orders
    ensures EndsExactlyWhen(Turns(s0, es).saga, id)
  {
    hide WorldOk, Turns, Inv, Drained, Begins;
    BeginsOk(s0);
    WorldHolds(s0, es);
    DrainedIsSettled(Turns(s0, es));
    SagaOk(Turns(s0, es));
    SettledOrder(Turns(s0, es).saga, id);
  }
}
