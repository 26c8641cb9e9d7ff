/** Retrying comes to an end: a measure that every hop lowers, and how many deliveries one
    publication can cause. */
module DeliveryBounds {
  import opened OrderModel
  import opened Topology
  import opened Delivery

  // ------------------------------------------------------------ sums over queues

  ghost function Total<T>(xs: seq<T>, cost: T -> nat): (n: nat) {
    if |xs| == 0 then 0 else Total(xs[..|xs| - 1], cost) + cost(xs[|xs| - 1])
  }

  lemma {:induction false} TotalConcat<T>(xs: seq<T>, ys: seq<T>, cost: T -> nat)
    ensures Total(xs + ys, cost) == Total(xs, cost) + Total(ys, cost)
  {
    if |ys| == 0 {
      assert xs + ys == xs;
    } else {
      assert (xs + ys)[..|xs + ys| - 1] == xs + ys[..|ys| - 1];
      TotalConcat(xs, ys[..|ys| - 1], cost);
    }
  }

  lemma TotalOne<T>(x: T, cost: T -> nat)
    ensures Total([x], cost) == cost(x)
  {
    assert [x][..0] == [];
  }

  lemma TotalWithout<T>(xs: seq<T>, i: nat, cost: T -> nat)
    requires i < |xs|
    ensures Total(Without(xs, i), cost) + cost(xs[i]) == Total(xs, cost)
  {
    hide Total;
    var front, back := xs[..i], xs[i + 1..];
    assert xs == (front + [xs[i]]) + back;
    TotalConcat(front + [xs[i]], back, cost);
    TotalConcat(front, [xs[i]], cost);
    TotalConcat(front, back, cost);
    TotalOne(xs[i], cost);
  }

  lemma TotalUpdate<T>(xs: seq<T>, i: nat, x: T, cost: T -> nat)
    requires i < |xs|
    ensures Total(xs[i := x], cost) + cost(xs[i]) == Total(xs, cost) + cost(x)
  {
    assert Without(xs[i := x], i) == Without(xs, i);
    TotalWithout(xs, i, cost);
    TotalWithout(xs[i := x], i, cost);
  }

  lemma {:induction false} TotalConstant<T>(xs: seq<T>, cost: T -> nat, each: nat)
    requires forall i :: 0 <= i < |xs| ==> cost(xs[i]) == each
    ensures Total(xs, cost) == |xs| * each
  {
    if |xs| > 0 {
      TotalConstant(xs[..|xs| - 1], cost, each);
      assert |xs| * each == (|xs| - 1) * each + each;
    }
  }

  // ------------------------------------------------------------ two prices for a copy

  /** How much a hop counts for: with steps == true every move costs one, otherwise only deliveries do. */
  function Unit(steps: bool): (n: nat) {
    if steps then 1 else 0
  }

  /** The price of a copy in a main queue: its own delivery, and, if it may be retried, the price of
      its copies in all the retry queues bound to its key. */
  function MainPrice(retries: nat, steps: bool, k: nat, attempt: nat): (n: nat)
    ensures n >= 1 + 4 * Unit(steps)
    decreases if attempt < retries then retries - attempt else 0, 0
  {
    1 + 4 * Unit(steps) + if attempt < retries then k * RetryPrice(retries, steps, k, attempt + 1) else 0
  }

  /** The price of a copy in a retry queue: it comes back to every main queue bound to its key. */
  function RetryPrice(retries: nat, steps: bool, k: nat, attempt: nat): (n: nat)
    decreases if attempt < retries then retries - attempt else 0, 1
  {
    Unit(steps) + k * MainPrice(retries, steps, k, attempt)
  }

  function Width(c: Copy): (k: nat) {
    |QueuesFor(c.kind)|
  }

  /** With Some(x) only message x counts, with None every message. */
  predicate About(of: Option<nat>, message: nat) {
    of.None? || of.value == message
  }

  function MainCost(retries: nat, steps: bool, of: Option<nat>): (f: Copy -> nat) {
    (c: Copy) => if About(of, c.message) then MainPrice(retries, steps, Width(c), c.attempt) else 0
  }

  function RetryCost(retries: nat, steps: bool, of: Option<nat>): (f: Copy -> nat) {
    (c: Copy) => if About(of, c.message) then RetryPrice(retries, steps, Width(c), c.attempt) else 0
  }

  /** How many of a delivery's own units are used up. */
  function Used(phase: Phase): (n: nat) {
    match phase
    case Received => 0
    case Handling => 1
    case Failed => 2
    case Released => 3
    case _ => 4
  }

  function WorkCost(retries: nat, steps: bool, of: Option<nat>): (f: Worker -> nat) {
    (w: Worker) => if !Open(w) || !About(of, w.copy.message) then 0
         else MainPrice(retries, steps, Width(w.copy), w.copy.attempt) - 1 - Used(w.phase) * Unit(steps)
  }

  /** The price of everything still in flight. */
  ghost function InFlight(b: Broker, steps: bool, of: Option<nat>): (n: nat) {
    Total(b.main, MainCost(b.retries, steps, of)) + Total(b.retry, RetryCost(b.retries, steps, of))
      + Total(b.workers, WorkCost(b.retries, steps, of))
  }

  function OneDelivery(of: Option<nat>): (f: Worker -> nat) {
    (w: Worker) => if About(of, w.copy.message) then 1 else 0
  }

  /** How many deliveries were made. */
  ghost function Deliveries(b: Broker, of: Option<nat>): (n: nat) {
    Total(b.workers, OneDelivery(of))
  }

  lemma FanPrice(b: Broker, message: nat, kind: EventType, attempt: nat, steps: bool, of: Option<nat>)
    ensures Total(Fan(message, kind, attempt), MainCost(b.retries, steps, of))
         == if About(of, message) then |QueuesFor(kind)| * MainPrice(b.retries, steps, |QueuesFor(kind)|, attempt) else 0
    ensures Total(Fan(message, kind, attempt), RetryCost(b.retries, steps, of))
         == if About(of, message) then |QueuesFor(kind)| * RetryPrice(b.retries, steps, |QueuesFor(kind)|, attempt) else 0
  {
    hide MainPrice, RetryPrice, Total;
    var k, counts := |QueuesFor(kind)|, About(of, message);
    TotalConstant(Fan(message, kind, attempt), MainCost(b.retries, steps, of),
      if counts then MainPrice(b.retries, steps, k, attempt) else 0);
    TotalConstant(Fan(message, kind, attempt), RetryCost(b.retries, steps, of),
      if counts then RetryPrice(b.retries, steps, k, attempt) else 0);
  }

  /** Anything that only moves copies along: no new publication, replay or redelivery. */
  predicate Inward(m: Move) {
    !m.Publish? && !m.Replay? && !m.Requeue?
  }

  /** The copy a hop is about. */
  function Carried(b: Broker, m: Move): (c: Option<Copy>) {
    match m
    case Publish(_, _) => None
    case Deliver(i) => if i < |b.main| then Some(b.main[i]) else None
    case Expire(i) => if i < |b.retry| then Some(b.retry[i]) else None
    case Replay(i) => if i < |b.dlq| then Some(b.dlq[i]) else None
    case _ => if m.w < |b.workers| then Some(b.workers[m.w].copy) else None
  }

  /** The hop is about a message that counts. */
  predicate Counts(b: Broker, m: Move, of: Option<nat>) {
    Carried(b, m).Some? && About(of, Carried(b, m).value.message)
  }

  lemma DeliverPrice(b: Broker, i: nat, steps: bool, of: Option<nat>)
    requires i < |b.main|
    ensures InFlight(Next(b, Deliver(i)), steps, of) + (if About(of, b.main[i].message) then 1 else 0) == InFlight(b, steps, of)
    ensures Deliveries(Next(b, Deliver(i)), of) == Deliveries(b, of) + (if About(of, b.main[i].message) then 1 else 0)
  {
    hide Total;
    var w := Worker(b.main[i], Received);
    TotalWithout(b.main, i, MainCost(b.retries, steps, of));
    TotalConcat(b.workers, [w], WorkCost(b.retries, steps, of));
    TotalOne(w, WorkCost(b.retries, steps, of));
    TotalConcat(b.workers, [w], OneDelivery(of));
    TotalOne(w, OneDelivery(of));
  }

  lemma ExpirePrice(b: Broker, i: nat, steps: bool, of: Option<nat>)
    requires i < |b.retry|
    ensures InFlight(Next(b, Expire(i)), steps, of) + (if About(of, b.retry[i].message) then Unit(steps) else 0)
         == InFlight(b, steps, of)
  {
    hide Total, MainPrice;
    var c := b.retry[i];
    TotalWithout(b.retry, i, RetryCost(b.retries, steps, of));
    TotalConcat(b.main, Refan(c, c.attempt), MainCost(b.retries, steps, of));
    FanPrice(b, c.message, c.kind, c.attempt, steps, of);
  }

  lemma WorkerPrice(b: Broker, w: nat, b': Broker, phase: Phase, steps: bool, of: Option<nat>)
    requires w < |b.workers| && Open(b.workers[w])
    requires b'.workers == b.workers[w := b.workers[w].(phase := phase)]
    requires b'.main == b.main && b'.retry == b.retry && b'.retries == b.retries
    requires Used(phase) > Used(b.workers[w].phase)
    ensures InFlight(b', steps, of) + (if About(of, b.workers[w].copy.message) then Unit(steps) else 0) <= InFlight(b, steps, of)
    ensures Deliveries(b', of) == Deliveries(b, of)
  {
    hide Total;
    TotalUpdate(b.workers, w, b.workers[w].(phase := phase), WorkCost(b.retries, steps, of));
    TotalUpdate(b.workers, w, b.workers[w].(phase := phase), OneDelivery(of));
  }

  /** A copy that may be retried is worth one delivery and its retry copies. */
  lemma RetryIsPaidFor(b: Broker, w: Worker, steps: bool, of: Option<nat>)
    requires w.phase == Released && MayRetry(b, w.copy)
    ensures Total(Refan(w.copy, w.copy.attempt + 1), RetryCost(b.retries, steps, of))
              + (if About(of, w.copy.message) then Unit(steps) else 0)
         == WorkCost(b.retries, steps, of)(w)
  {
    FanPrice(b, w.copy.message, w.copy.kind, w.copy.attempt + 1, steps, of);
  }

  lemma RetryHopPrice(b: Broker, w: nat, steps: bool, of: Option<nat>)
    requires At(b, w, Released) && MayRetry(b, b.workers[w].copy)
    ensures InFlight(Next(b, Resolve(w, true)), steps, of) + (if About(of, b.workers[w].copy.message) then Unit(steps) else 0)
         <= InFlight(b, steps, of)
    ensures Deliveries(Next(b, Resolve(w, true)), of) == Deliveries(b, of)
  {
    hide Fan, MainPrice, RetryPrice, Total;
    var c := b.workers[w].copy;
    RetryIsPaidFor(b, b.workers[w], steps, of);
    TotalUpdate(b.workers, w, b.workers[w].(phase := Acked), WorkCost(b.retries, steps, of));
    TotalUpdate(b.workers, w, b.workers[w].(phase := Acked), OneDelivery(of));
    TotalConcat(b.retry, Refan(c, c.attempt + 1), RetryCost(b.retries, steps, of));
  }

  /** Every such hop that does anything and counts lowers the price of what is in flight, the others leave
      it alone, and a delivery lowers it by one even when only deliveries are counted. */
  lemma HopsAreFinite(b: Broker, m: Move, steps: bool, of: Option<nat>)
    requires Inward(m) && Next(b, m) != b
    ensures Counts(b, m, None)
    ensures InFlight(Next(b, m), steps, of) + (if Counts(b, m, of) then Unit(steps) else 0) <= InFlight(b, steps, of)
    ensures InFlight(Next(b, m), steps, of) + Deliveries(Next(b, m), of) <= InFlight(b, steps, of) + Deliveries(b, of)
  {
    hide InFlight, Deliveries, Fan, MainPrice, RetryPrice;
    if m.Deliver? {
      DeliverPrice(b, m.i, steps, of);
    } else if m.Expire? {
      ExpirePrice(b, m.i, steps, of);
      SameWorkers(b, Next(b, m), of);
    } else if m.Resolve? && m.accepted && MayRetry(b, b.workers[m.w].copy) {
      RetryHopPrice(b, m.w, steps, of);
    } else {
      WorkerPrice(b, m.w, Next(b, m), Next(b, m).workers[m.w].phase, steps, of);
    }
  }

  lemma SameWorkers(b: Broker, b': Broker, of: Option<nat>)
    requires b'.workers == b.workers
    ensures Deliveries(b', of) == Deliveries(b, of)
  {
  }

  /** How many of the moves did anything. */
  function Effective(b: Broker, ms: seq<Move>): (n: nat) {
    if |ms| == 0 then 0
    else
      var before := Moves(b, ms[..|ms| - 1]);
      Effective(b, ms[..|ms| - 1]) + if Next(before, ms[|ms| - 1]) != before then 1 else 0
  }

  /** Without new publications, replays or redeliveries every run comes to rest: it takes at most as
      many effective moves as what was in flight is worth. */
  lemma {:induction false} RunsComeToRest(b: Broker, ms: seq<Move>)
    requires forall i :: 0 <= i < |ms| ==> Inward(ms[i])
    ensures Effective(b, ms) + InFlight(Moves(b, ms), true, None) <= InFlight(b, true, None)
  {
    hide InFlight, Next, Fan, Counts;
    if |ms| > 0 {
      var before, m := Moves(b, ms[..|ms| - 1]), ms[|ms| - 1];
      RunsComeToRest(b, ms[..|ms| - 1]);
      if Next(before, m) != before {
        HopsAreFinite(before, m, true, None);
      }
    }
  }

  // ------------------------------------------------------------ deliveries over whole runs

  /** 1 + k^2 + ... + k^(2M) */
  function Geometric(k: nat, m: nat): (n: nat) {
    if m == 0 then 1 else 1 + k * k * Geometric(k, m - 1)
  }

  lemma {:induction false} PriceIsGeometric(retries: nat, k: nat, attempt: nat)
    requires attempt <= retries
    ensures MainPrice(retries, false, k, attempt) == Geometric(k, retries - attempt)
    decreases retries - attempt
  {
    if attempt < retries {
      PriceIsGeometric(retries, k, attempt + 1);
      var g := Geometric(k, retries - attempt - 1);
      assert RetryPrice(retries, false, k, attempt + 1) == k * g;
      assert k * (k * g) == k * k * g;
    }
  }

  /** Fewer retries left, fewer deliveries to come. */
  lemma {:induction false} GeometricGrows(k: nat, m: nat, n: nat)
    requires m <= n
    ensures Geometric(k, m) <= Geometric(k, n)
  {
    if m > 0 {
      GeometricGrows(k, m - 1, n - 1);
      ProductGrows(k * k, Geometric(k, m - 1), Geometric(k, n - 1));
    } else if n > 0 {
      ProductGrows(k * k, 0, Geometric(k, n - 1));
    }
  }

  lemma ProductGrows(a: nat, b: nat, c: nat)
    requires b <= c
    ensures 0 <= a * b <= a * c
  {
    assert a * c == a * b + a * (c - b);
  }

  /** A copy never costs more deliveries than a freshly published one. */
  lemma AgedIsCheaper(retries: nat, k: nat, attempt: nat)
    ensures MainPrice(retries, false, k, attempt) <= Geometric(k, retries)
  {
    if attempt <= retries {
      PriceIsGeometric(retries, k, attempt);
      GeometricGrows(k, retries - attempt, retries);
    } else {
      GeometricGrows(k, 0, retries);
    }
  }

  /** The deliveries one more copy in each queue of a key can cause. */
  function Allowance(retries: nat, kind: EventType): (n: nat) {
    |QueuesFor(kind)| * Geometric(|QueuesFor(kind)|, retries)
  }

  /** What a move adds: a publication or a replay fans out to every queue, a redelivery is one copy. */
  function Grant(b: Broker, m: Move, of: Option<nat>): (n: nat) {
    match m
    case Publish(message, kind) => if About(of, message) then Allowance(b.retries, kind) else 0
    case Replay(_) => if Counts(b, m, of) then Allowance(b.retries, Carried(b, m).value.kind) else 0
    case Requeue(_) => if Counts(b, m, of) then Geometric(Width(Carried(b, m).value), b.retries) else 0
    case _ => 0
  }

  function Granted(b: Broker, ms: seq<Move>, of: Option<nat>): (n: nat) {
    if |ms| == 0 then 0
    else Granted(b, ms[..|ms| - 1], of) + Grant(Moves(b, ms[..|ms| - 1]), ms[|ms| - 1], of)
  }

  lemma FanGrant(b: Broker, b': Broker, message: nat, kind: EventType, attempt: nat, of: Option<nat>)
    requires b'.main == b.main + Fan(message, kind, attempt)
    requires b'.retry == b.retry && b'.workers == b.workers && b'.retries == b.retries
    ensures InFlight(b', false, of) <= InFlight(b, false, of) + (if About(of, message) then Allowance(b.retries, kind) else 0)
  {
    hide Total, Fan, Geometric;
    var k := |QueuesFor(kind)|;
    TotalConcat(b.main, Fan(message, kind, attempt), MainCost(b.retries, false, of));
    FanPrice(b, message, kind, attempt, false, of);
    AgedIsCheaper(b.retries, k, attempt);
    ProductGrows(k, MainPrice(b.retries, false, k, attempt), Geometric(k, b.retries));
  }

  lemma RequeueGrant(b: Broker, w: nat, of: Option<nat>)
    requires w < |b.workers| && Open(b.workers[w])
    ensures InFlight(Next(b, Requeue(w)), false, of) <= InFlight(b, false, of) + Grant(b, Requeue(w), of)
  {
    hide Total, Geometric;
    var c := b.workers[w].copy;
    TotalConcat(b.main, [c], MainCost(b.retries, false, of));
    TotalOne(c, MainCost(b.retries, false, of));
    AgedIsCheaper(b.retries, Width(c), c.attempt);
  }

  lemma GrantStep(b: Broker, m: Move, of: Option<nat>)
    ensures Next(b, m).retries == b.retries
    ensures Deliveries(Next(b, m), of) + InFlight(Next(b, m), false, of)
         <= Deliveries(b, of) + InFlight(b, false, of) + Grant(b, m, of)
  {
    hide InFlight, Deliveries, Fan, MainPrice, RetryPrice, Allowance;
    if Next(b, m) == b {
      // nothing moved
    } else if Inward(m) {
      HopsAreFinite(b, m, false, of);
    } else {
      SameWorkers(b, Next(b, m), of);
      match m
      case Publish(message, kind) => FanGrant(b, Next(b, m), message, kind, 0, of);
      case Replay(i) => FanGrant(b, Next(b, m), b.dlq[i].message, b.dlq[i].kind, b.dlq[i].attempt, of);
      case Requeue(w) => RequeueGrant(b, w, of);
    }
  }

  /** Under any traffic and any handler outcomes, the deliveries of one message, or of all, plus the price
      of what is still in flight never exceed what its publications, replays and redeliveries granted. */
  lemma {:induction false} DeliveriesWithinGrants(b: Broker, ms: seq<Move>, of: Option<nat>)
    requires Idle(b)
    ensures var b' := Moves(b, ms);
      b'.retries == b.retries && Deliveries(b', of) + InFlight(b', false, of) <= Granted(b, ms, of)
  {
    hide Next, Grant, Counts;
    if |ms| > 0 {
      hide InFlight, Deliveries;
      DeliveriesWithinGrants(b, ms[..|ms| - 1], of);
      GrantStep(Moves(b, ms[..|ms| - 1]), ms[|ms| - 1], of);
    }
  }

  // ------------------------------------------------------------ one message

  /** Every copy of the message carries its one event type. */
  ghost predicate OfKind(copies: seq<Copy>, x: nat, kind: EventType) {
    forall i :: 0 <= i < |copies| && copies[i].message == x ==> copies[i].kind == kind
  }

  ghost predicate Kinded(b: Broker, x: nat, kind: EventType) {
    && OfKind(b.main, x, kind) && OfKind(b.retry, x, kind) && OfKind(b.dlq, x, kind)
    && forall w :: 0 <= w < |b.workers| && b.workers[w].copy.message == x ==> b.workers[w].copy.kind == kind
  }

  /** Each time the message is published it is published as this type. */
  ghost predicate PublishedAs(ms: seq<Move>, x: nat, kind: EventType) {
    forall i :: 0 <= i < |ms| && ms[i].Publish? && ms[i].message == x ==> ms[i].kind == kind
  }

  lemma FanOfKind(c: Copy, attempt: nat, x: nat, kind: EventType)
    requires c.message == x ==> c.kind == kind
    ensures OfKind(Refan(c, attempt), x, kind)
  {
  }

  lemma OfKindGrows(xs: seq<Copy>, ys: seq<Copy>, x: nat, kind: EventType)
    requires OfKind(xs, x, kind) && OfKind(ys, x, kind)
    ensures OfKind(xs + ys, x, kind)
  {
  }

  lemma OfKindShrinks(xs: seq<Copy>, i: nat, x: nat, kind: EventType)
    requires i < |xs| && OfKind(xs, x, kind)
    ensures OfKind(Without(xs, i), x, kind) && (xs[i].message == x ==> xs[i].kind == kind)
  {
  }

  /** The copies a move adds are of its own copy. */
  lemma KindedStep(b: Broker, m: Move, x: nat, kind: EventType)
    requires Kinded(b, x, kind) && (m.Publish? && m.message == x ==> m.kind == kind)
    ensures Kinded(Next(b, m), x, kind)
  {
    hide Fan, OfKind, Without;
    match m
    case Publish(message, _) =>
      var c := Copy(InventoryReserve, message, m.kind, 0);
      FanOfKind(c, 0, x, kind);
      assert Refan(c, 0) == Fan(message, m.kind, 0);
      OfKindGrows(b.main, Fan(message, m.kind, 0), x, kind);
    case Deliver(i) =>
      if i < |b.main| {
        OfKindShrinks(b.main, i, x, kind);
      }
    case Expire(i) =>
      if i < |b.retry| {
        OfKindShrinks(b.retry, i, x, kind);
        FanOfKind(b.retry[i], b.retry[i].attempt, x, kind);
        OfKindGrows(b.main, Refan(b.retry[i], b.retry[i].attempt), x, kind);
      }
    case Replay(i) =>
      if i < |b.dlq| {
        OfKindShrinks(b.dlq, i, x, kind);
        FanOfKind(b.dlq[i], b.dlq[i].attempt, x, kind);
        OfKindGrows(b.main, Refan(b.dlq[i], b.dlq[i].attempt), x, kind);
      }
    case _ => WorkerKinded(b, m, x, kind);
  }

  lemma WorkerKinded(b: Broker, m: Move, x: nat, kind: EventType)
    requires Kinded(b, x, kind) && !m.Publish? && !m.Deliver? && !m.Expire? && !m.Replay?
    ensures Kinded(Next(b, m), x, kind)
  {
    hide Refan, OfKind, Next;
    WorkerMoves(b, m);
    if m.w < |b.workers| {
      var c := b.workers[m.w].copy;
      FanOfKind(c, c.attempt, x, kind);
      FanOfKind(c, c.attempt + 1, x, kind);
      OfKindGrows(b.dlq, Refan(c, c.attempt), x, kind);
      OfKindGrows(b.retry, Refan(c, c.attempt + 1), x, kind);
      OneOfKind(c, x, kind);
      OfKindGrows(b.main, [c], x, kind);
    }
  }

  /** A worker's move adds at most one fan-out of its own copy to each queue and keeps every worker's copy. */
  lemma WorkerMoves(b: Broker, m: Move)
    requires !m.Publish? && !m.Deliver? && !m.Expire? && !m.Replay?
    ensures var b' := Next(b, m);
      && |b'.workers| == |b.workers| && (forall w :: 0 <= w < |b.workers| ==> b'.workers[w].copy == b.workers[w].copy)
      && (m.w < |b.workers| ==>
            var c := b.workers[m.w].copy;
            && (b'.main == b.main || b'.main == b.main + [c])
            && (b'.retry == b.retry || b'.retry == b.retry + Refan(c, c.attempt + 1))
            && (b'.dlq == b.dlq || b'.dlq == b.dlq + Refan(c, c.attempt)))
      && (m.w >= |b.workers| ==> b' == b)
  {
    hide Refan;
  }

  lemma OneOfKind(c: Copy, x: nat, kind: EventType)
    requires c.message == x ==> c.kind == kind
    ensures OfKind([c], x, kind)
  {
  }

  /** How many moves publish, replay or redeliver the message. */
  function Publications(ms: seq<Move>, x: nat): (n: nat) {
    if |ms| == 0 then 0
    else
      var m := ms[|ms| - 1];
      Publications(ms[..|ms| - 1], x) + if m.Publish? && m.message == x then 1 else 0
  }

  function Replays(b: Broker, ms: seq<Move>, x: nat): (n: nat) {
    if |ms| == 0 then 0
    else
      var m, before := ms[|ms| - 1], Moves(b, ms[..|ms| - 1]);
      Replays(b, ms[..|ms| - 1], x) + if m.Replay? && Counts(before, m, Some(x)) then 1 else 0
  }

  function Redeliveries(b: Broker, ms: seq<Move>, x: nat): (n: nat) {
    if |ms| == 0 then 0
    else
      var m, before := ms[|ms| - 1], Moves(b, ms[..|ms| - 1]);
      Redeliveries(b, ms[..|ms| - 1], x) + if m.Requeue? && Counts(before, m, Some(x)) then 1 else 0
  }

  /** The grants of one message, by what was done with it. */
  ghost function GrantsOf(b: Broker, ms: seq<Move>, x: nat, kind: EventType): (n: nat) {
    (Publications(ms, x) + Replays(b, ms, x)) * Allowance(b.retries, kind)
      + Redeliveries(b, ms, x) * Geometric(|QueuesFor(kind)|, b.retries)
  }

  lemma {:induction false} StaysKinded(b: Broker, ms: seq<Move>, x: nat, kind: EventType)
    requires Idle(b) && PublishedAs(ms, x, kind)
    ensures Kinded(Moves(b, ms), x, kind) && Moves(b, ms).retries == b.retries
  {
    if |ms| > 0 {
      hide Next, Kinded;
      StaysKinded(b, ms[..|ms| - 1], x, kind);
      KindedStep(Moves(b, ms[..|ms| - 1]), ms[|ms| - 1], x, kind);
      GrantStep(Moves(b, ms[..|ms| - 1]), ms[|ms| - 1], None);
    }
  }

  lemma {:induction false} GrantedToOne(b: Broker, ms: seq<Move>, x: nat, kind: EventType)
    requires Idle(b) && PublishedAs(ms, x, kind)
    ensures Granted(b, ms, Some(x)) == GrantsOf(b, ms, x, kind)
  {
    hide Allowance, Geometric, Next, Kinded, Moves, Counts, Grant;
    if |ms| > 0 {
      var front, m := ms[..|ms| - 1], ms[|ms| - 1];
      GrantedToOne(b, front, x, kind);
      StaysKinded(b, front, x, kind);
      GrantOf(Moves(b, front), m, x, kind);
      OneMoreOf(Publications(front, x) + Replays(b, front, x), Redeliveries(b, front, x), Allowance(b.retries, kind),
        Geometric(|QueuesFor(kind)|, b.retries));
    }
  }

  lemma GrantOf(b: Broker, m: Move, x: nat, kind: EventType)
    requires Kinded(b, x, kind) && (m.Publish? && m.message == x ==> m.kind == kind)
    ensures Grant(b, m, Some(x)) ==
      if (m.Publish? && m.message == x) || (m.Replay? && Counts(b, m, Some(x))) then Allowance(b.retries, kind)
      else if m.Requeue? && Counts(b, m, Some(x)) then Geometric(|QueuesFor(kind)|, b.retries)
      else 0
  {
    hide Allowance, Geometric;
  }

  lemma OneMoreOf(n: nat, m: nat, a: nat, g: nat)
    ensures (n + 1) * a + m * g == n * a + m * g + a && n * a + (m + 1) * g == n * a + m * g + g
  {
  }

  /** Among any other traffic and whatever the handlers return, a message whose key is bound to k queues
      is delivered at most k (1 + k^2 + ... + k^(2M)) times with M retries, for each time it is published
      or replayed, and 1 + k^2 + ... + k^(2M) times more for each redelivery by the broker. */
  lemma RetryStormIsBounded(b: Broker, ms: seq<Move>, x: nat, kind: EventType)
    requires Idle(b) && PublishedAs(ms, x, kind)
    ensures var k := |QueuesFor(kind)|;
      Deliveries(Moves(b, ms), Some(x))
        <= (Publications(ms, x) + Replays(b, ms, x)) * (k * Geometric(k, b.retries))
           + Redeliveries(b, ms, x) * Geometric(k, b.retries)
  {
    hide Moves, InFlight, Deliveries, Granted, Geometric, Publications, Replays, Redeliveries;
    DeliveriesWithinGrants(b, ms, Some(x));
    GrantedToOne(b, ms, x, kind);
  }

  /** With the default three retries, a message that is published once and neither replayed nor redelivered
      by the broker is delivered at most four times if its key has one queue, and at most 170 times if it is
      one of the failure events, which two queues share. */
  lemma DefaultRetryStorm(b: Broker, ms: seq<Move>, x: nat, kind: EventType)
    requires Idle(b) && b.retries == DEFAULT_MAX_RETRIES && PublishedAs(ms, x, kind) && !kind.OtherEvent?
    requires Publications(ms, x) == 1 && Replays(b, ms, x) == 0 && Redeliveries(b, ms, x) == 0
    ensures Deliveries(Moves(b, ms), Some(x)) <= if Binds(OrdersCompensate, kind) then 170 else 4
  {
    hide Moves, Deliveries;
    RetryStormIsBounded(b, ms, x, kind);
    assert Geometric(2, 3) == 85 by {
      assert Geometric(2, 1) == 5;
      assert Geometric(2, 2) == 21;
    }
    assert Geometric(1, 3) == 4 by {
      assert Geometric(1, 2) == 3;
    }
  }
}
