/** Delivery as a transition system: topic fan-out, workers running ProcessDelivery, inbox, bounded
    retry, dead-letter queues and replay (internal/messaging/consumer.go, topology.go, rabbitmq.go,
    rabbitmq_consumer.go, dlq.go). A retried, expired, dead-lettered or replayed message keeps its
    routing key, so each of those hops fans out again to every queue bound to that key. */
module Delivery {
  import opened OrderModel
  import opened Topology

  /** One copy of a message in the main, retry or dead-letter queue of `queue`. */
  datatype Copy = Copy(queue: Queue, message: nat, kind: EventType, attempt: nat)

  /** How far ProcessDelivery got. The last two are settled. */
  datatype Phase = Received | Handling | Failed | Released | Acked | Nacked

  datatype Worker = Worker(copy: Copy, phase: Phase)

  datatype Consumption = Consumption(queue: Queue, message: nat)

  datatype Publication = Publication(message: nat, kind: EventType)

  /** `workers` keeps every delivery ever made, `cut` those whose connection was lost before they were
      settled; `wins` and `losses` log what handlers returned. */
  datatype Broker = Broker(
    retries: nat,
    main: seq<Copy>,
    retry: seq<Copy>,
    dlq: seq<Copy>,
    workers: seq<Worker>,
    cut: set<nat>,
    inbox: set<Consumption>,
    wins: seq<Consumption>,
    losses: set<Consumption>,
    published: seq<Publication>)

  datatype Move =
    | Publish(message: nat, kind: EventType)
    | Deliver(i: nat)
    | Malformed(w: nat)                    // the body does not decode
    | InboxDown(w: nat)                    // recording in the inbox fails
    | Record(w: nat)
    | Return(w: nat, ok: bool)             // the handler returns
    | Free(w: nat, ok: bool)               // the inbox entry is released, or that fails
    | Resolve(w: nat, accepted: bool)      // retry or give up; the broker may refuse the retry
    | Expire(i: nat)                       // a retry queue's TTL runs out
    | Replay(i: nat)                       // an operator replays one dead letter
    | Requeue(w: nat)                      // the connection is lost: the broker redelivers, the worker goes on

  function Fan(message: nat, kind: EventType, attempt: nat): (copies: seq<Copy>)
    ensures |copies| == |QueuesFor(kind)|
  {
    seq(|QueuesFor(kind)|, i requires 0 <= i < |QueuesFor(kind)| => Copy(QueuesFor(kind)[i], message, kind, attempt))
  }

  function Refan(c: Copy, attempt: nat): (copies: seq<Copy>) {
    Fan(c.message, c.kind, attempt)
  }

  function Without<T>(xs: seq<T>, i: nat): (r: seq<T>)
    requires i < |xs|
  {
    xs[..i] + xs[i + 1..]
  }

  function Use(c: Copy): (k: Consumption) {
    Consumption(c.queue, c.message)
  }

  function To(b: Broker, w: nat, phase: Phase): (b': Broker)
    requires w < |b.workers|
  {
    b.(workers := b.workers[w := b.workers[w].(phase := phase)])
  }

  /** A negative acknowledgement sends the message to the dead-letter exchange, unless the connection it was
      delivered on is gone. */
  function Nack(b: Broker, w: nat): (b': Broker)
    requires w < |b.workers|
  {
    if w in b.cut then To(b, w, Nacked)
    else To(b, w, Nacked).(dlq := b.dlq + Refan(b.workers[w].copy, b.workers[w].copy.attempt))
  }

  predicate At(b: Broker, w: nat, phase: Phase) {
    w < |b.workers| && b.workers[w].phase == phase
  }

  /** shouldRetry */
  predicate MayRetry(b: Broker, c: Copy) {
    c.attempt < b.retries
  }

  function Next(b: Broker, m: Move): (b': Broker) {
    match m
    case Publish(message, kind) =>
      b.(main := b.main + Fan(message, kind, 0), published := b.published + [Publication(message, kind)])
    case Deliver(i) =>
      if i < |b.main| then b.(main := Without(b.main, i), workers := b.workers + [Worker(b.main[i], Received)]) else b
    case Malformed(w) => if At(b, w, Received) then Nack(b, w) else b
    case InboxDown(w) => if At(b, w, Received) then Nack(b, w) else b
    case Record(w) =>
      if !At(b, w, Received) then b
      else if Use(b.workers[w].copy) in b.inbox then To(b, w, Acked)
      else To(b, w, Handling).(inbox := b.inbox + {Use(b.workers[w].copy)})
    case Return(w, ok) =>
      if !At(b, w, Handling) then b
      else if ok then To(b, w, Acked).(wins := b.wins + [Use(b.workers[w].copy)])
      else To(b, w, Failed).(losses := b.losses + {Use(b.workers[w].copy)})
    case Free(w, ok) =>
      if !At(b, w, Failed) then b
      else if ok then To(b, w, Released).(inbox := b.inbox - {Use(b.workers[w].copy)})
      else Nack(b, w)
    case Resolve(w, accepted) =>
      if !At(b, w, Released) then b
      else if MayRetry(b, b.workers[w].copy) && accepted then
        To(b, w, Acked).(retry := b.retry + Refan(b.workers[w].copy, b.workers[w].copy.attempt + 1))
      else Nack(b, w)
    case Expire(i) =>
      if i < |b.retry| then b.(retry := Without(b.retry, i), main := b.main + Refan(b.retry[i], b.retry[i].attempt)) else b
    case Replay(i) =>
      if i < |b.dlq| then b.(dlq := Without(b.dlq, i), main := b.main + Refan(b.dlq[i], b.dlq[i].attempt)) else b
    case Requeue(w) =>
      if w < |b.workers| && Open(b.workers[w]) && w !in b.cut
      then b.(main := b.main + [b.workers[w].copy], cut := b.cut + {w}) else b
  }

  predicate Open(w: Worker) {
    w.phase != Acked && w.phase != Nacked
  }

  function Moves(b: Broker, ms: seq<Move>): (b': Broker) {
    if |ms| == 0 then b else Next(Moves(b, ms[..|ms| - 1]), ms[|ms| - 1])
  }

  ghost predicate Idle(b: Broker) {
    b.main == [] && b.retry == [] && b.dlq == [] && b.workers == [] && b.cut == {} && b.inbox == {} && b.wins == [] && b.losses == {}
      && b.published == []
  }

  lemma FanHas(message: nat, kind: EventType, attempt: nat, q: Queue)
    requires q in QueuesFor(kind)
    ensures Copy(q, message, kind, attempt) in Fan(message, kind, attempt)
  {
    var i :| 0 <= i < |QueuesFor(kind)| && QueuesFor(kind)[i] == q;
    assert Fan(message, kind, attempt)[i] == Copy(q, message, kind, attempt);
  }

  lemma WithoutHas<T>(xs: seq<T>, i: nat, x: T)
    requires i < |xs|
    ensures x in Without(xs, i) ==> x in xs
    ensures x in xs ==> x == xs[i] || x in Without(xs, i)
  {
    assert xs == xs[..i] + [xs[i]] + xs[i + 1..];
  }

  // ------------------------------------------------------------ at most one handler, at most one success

  /** The handler runs, or has failed and still holds its inbox entry. */
  predicate Active(w: Worker) {
    w.phase == Handling || w.phase == Failed
  }

  ghost predicate OneAtATime(b: Broker) {
    forall i, j :: 0 <= i < j < |b.workers| && Active(b.workers[i]) && Active(b.workers[j]) ==>
      Use(b.workers[i].copy) != Use(b.workers[j].copy)
  }

  ghost predicate NoRepeat(wins: seq<Consumption>) {
    forall i, j :: 0 <= i < j < |wins| ==> wins[i] != wins[j]
  }

  ghost predicate Exclusive(b: Broker) {
    && OneAtATime(b)
    && NoRepeat(b.wins)
    && (forall i :: 0 <= i < |b.wins| ==> b.wins[i] in b.inbox)
    && (forall i :: 0 <= i < |b.workers| && Active(b.workers[i]) ==>
          Use(b.workers[i].copy) in b.inbox && Use(b.workers[i].copy) !in b.wins)
  }

  /** Nothing that matters here changes but one worker's phase, to one that is not active. */
  lemma ExclusiveQuiet(b: Broker, b': Broker)
    requires Exclusive(b) && b'.wins == b.wins && b.inbox <= b'.inbox && |b.workers| <= |b'.workers|
    requires forall i :: 0 <= i < |b.workers| ==>
      b'.workers[i].copy == b.workers[i].copy && (Active(b'.workers[i]) ==> Active(b.workers[i]))
    requires forall i :: |b.workers| <= i < |b'.workers| ==> !Active(b'.workers[i])
    ensures Exclusive(b')
  {
  }

  lemma RecordExclusive(b: Broker, w: nat)
    requires Exclusive(b)
    ensures Exclusive(Next(b, Record(w)))
  {
  }

  lemma ReturnExclusive(b: Broker, w: nat, ok: bool)
    requires Exclusive(b)
    ensures Exclusive(Next(b, Return(w, ok)))
  {
    var b' := Next(b, Return(w, ok));
    if At(b, w, Handling) && ok {
      assert forall i :: 0 <= i < |b.wins| ==> b'.wins[i] == b.wins[i];
    }
  }

  lemma FreeExclusive(b: Broker, w: nat, ok: bool)
    requires Exclusive(b)
    ensures Exclusive(Next(b, Free(w, ok)))
  {
    hide Fan;
  }

  lemma ExclusiveStep(b: Broker, m: Move)
    requires Exclusive(b)
    ensures Exclusive(Next(b, m))
  {
    hide Fan, Exclusive;
    match m
    case Record(w) => RecordExclusive(b, w);
    case Return(w, ok) => ReturnExclusive(b, w, ok);
    case Free(w, ok) => FreeExclusive(b, w, ok);
    case _ => ExclusiveQuiet(b, Next(b, m));
  }

  lemma {:induction false} ExclusiveRun(b: Broker, ms: seq<Move>)
    requires Exclusive(b)
    ensures Exclusive(Moves(b, ms))
  {
    hide Exclusive, Next;
    if |ms| > 0 {
      ExclusiveRun(b, ms[..|ms| - 1]);
      ExclusiveStep(Moves(b, ms[..|ms| - 1]), ms[|ms| - 1]);
    }
  }

  /** With any number of workers, redeliveries, retries and replays: for each consumer and message at
      most one handler is running at a time, at most one ever succeeds, and after that none runs. */
  lemma ExactlyOnceEffect(b: Broker, ms: seq<Move>)
    requires Idle(b)
    ensures var b' := Moves(b, ms);
      && OneAtATime(b') && NoRepeat(b'.wins)
      && forall i :: 0 <= i < |b'.workers| && Active(b'.workers[i]) ==> Use(b'.workers[i].copy) !in b'.wins
  {
    hide Moves;
    ExclusiveRun(b, ms);
  }
}
