/** When a delivery can be lost, and that it is not lost otherwise. */
module DeliveryLaws {
  import opened OrderModel
  import opened Topology
  import opened Delivery

  // ------------------------------------------------------------ nothing is lost

  ghost predicate Routed(copies: seq<Copy>) {
    forall c :: c in copies ==> c.queue in QueuesFor(c.kind)
  }

  ghost predicate AllRouted(b: Broker) {
    && Routed(b.main) && Routed(b.retry) && Routed(b.dlq)
    && forall i :: 0 <= i < |b.workers| ==> b.workers[i].copy.queue in QueuesFor(b.workers[i].copy.kind)
  }

  ghost predicate Place(copies: seq<Copy>, use: Consumption) {
    exists c :: c in copies && Use(c) == use
  }

  ghost predicate Busy(workers: seq<Worker>, use: Consumption) {
    exists i :: 0 <= i < |workers| && Open(workers[i]) && Use(workers[i].copy) == use
  }

  /** The consumer has succeeded, or a copy is in its main queue, its retry queue, its dead-letter
      queue or in process. */
  ghost predicate Accounted(b: Broker, use: Consumption) {
    use in b.wins || Place(b.main, use) || Place(b.retry, use) || Place(b.dlq, use) || Busy(b.workers, use)
  }

  /** An inbox entry has a success or a running handler behind it. */
  ghost predicate Backed(b: Broker, use: Consumption) {
    use in b.inbox ==>
      use in b.wins || exists i :: 0 <= i < |b.workers| && Active(b.workers[i]) && Use(b.workers[i].copy) == use
  }

  ghost predicate InboxBacked(b: Broker) {
    forall use :: use in b.inbox ==>
      use in b.wins || exists i :: 0 <= i < |b.workers| && Active(b.workers[i]) && Use(b.workers[i].copy) == use
  }

  /** A worker cannot give back the inbox entry of this message. */
  predicate FailsRelease(b: Broker, m: Move, use: Consumption) {
    m.Free? && !m.ok && At(b, m.w, Failed) && Use(b.workers[m.w].copy) == use
  }

  /** The connection is lost during a delivery of this message. */
  predicate Disconnects(b: Broker, m: Move, use: Consumption) {
    m.Requeue? && m.w < |b.workers| && Use(b.workers[m.w].copy) == use
  }

  /** Some worker could not give back the inbox entry. */
  ghost predicate ReleaseFailed(b: Broker, ms: seq<Move>, use: Consumption) {
    |ms| > 0 &&
    (ReleaseFailed(b, ms[..|ms| - 1], use) || FailsRelease(Moves(b, ms[..|ms| - 1]), ms[|ms| - 1], use))
  }

  /** Some delivery of the message lost its connection. */
  ghost predicate Disconnected(b: Broker, ms: seq<Move>, use: Consumption) {
    |ms| > 0 &&
    (Disconnected(b, ms[..|ms| - 1], use) || Disconnects(Moves(b, ms[..|ms| - 1]), ms[|ms| - 1], use))
  }

  /** No worker of the message has lost its connection. */
  ghost predicate Linked(b: Broker, use: Consumption) {
    forall w :: w in b.cut ==> w < |b.workers| && Use(b.workers[w].copy) != use
  }

  /** No connection loss, no failing inbox release. */
  predicate Calm(m: Move) {
    match m
    case Requeue(_) => false
    case Free(_, ok) => ok
    case _ => true
  }

  lemma FanRouted(message: nat, kind: EventType, attempt: nat)
    ensures Routed(Fan(message, kind, attempt))
  {
    forall c | c in Fan(message, kind, attempt) ensures c.queue in QueuesFor(c.kind) {
      var i :| 0 <= i < |QueuesFor(kind)| && Fan(message, kind, attempt)[i] == c;
    }
  }

  lemma RoutedStep(b: Broker, m: Move)
    requires AllRouted(b)
    ensures AllRouted(Next(b, m))
  {
    hide Fan, QueuesFor;
    match m
    case Publish(message, kind) => FanRouted(message, kind, 0);
    case Expire(i) => if i < |b.retry| { FanRouted(b.retry[i].message, b.retry[i].kind, b.retry[i].attempt); }
    case Replay(i) => if i < |b.dlq| { FanRouted(b.dlq[i].message, b.dlq[i].kind, b.dlq[i].attempt); }
    case Deliver(_) =>
    case Requeue(_) =>
    case Malformed(w) => if At(b, w, Received) { WorkerFans(b, w); }
    case InboxDown(w) => if At(b, w, Received) { WorkerFans(b, w); }
    case Record(_) =>
    case Return(_, _) =>
    case Free(w, _) => if At(b, w, Failed) { WorkerFans(b, w); }
    case Resolve(w, _) => if At(b, w, Released) { WorkerFans(b, w); }
  }

  lemma WorkerFans(b: Broker, w: nat)
    requires w < |b.workers|
    ensures Routed(Refan(b.workers[w].copy, b.workers[w].copy.attempt))
    ensures Routed(Refan(b.workers[w].copy, b.workers[w].copy.attempt + 1))
  {
    var c := b.workers[w].copy;
    FanRouted(c.message, c.kind, c.attempt);
    FanRouted(c.message, c.kind, c.attempt + 1);
  }

  /** A handler that stops running either succeeded or released its inbox entry. */
  lemma ActiveEnds(b: Broker, m: Move, i: nat)
    requires Exclusive(b) && i < |b.workers| && Active(b.workers[i]) && !FailsRelease(b, m, Use(b.workers[i].copy))
    ensures var b' := Next(b, m); var use := Use(b.workers[i].copy);
      && i < |b'.workers| && b'.workers[i].copy == b.workers[i].copy
      && (Active(b'.workers[i]) || use in b'.wins || use !in b'.inbox)
  {
    hide Fan, OneAtATime, NoRepeat;
  }

  lemma InboxMoves(b: Broker, m: Move, use: Consumption)
    requires use in Next(b, m).inbox
    ensures use in b.wins ==> use in Next(b, m).wins
    ensures use !in b.inbox ==>
      m.Record? && m.w < |Next(b, m).workers| && Active(Next(b, m).workers[m.w]) && Use(Next(b, m).workers[m.w].copy) == use
  {
    hide Fan;
  }

  lemma BackedStep(b: Broker, m: Move, use: Consumption)
    requires Backed(b, use) && Exclusive(b) && !FailsRelease(b, m, use)
    ensures Backed(Next(b, m), use)
  {
    hide Next, Exclusive, Active, FailsRelease;
    if use in Next(b, m).inbox {
      InboxMoves(b, m, use);
      if use in b.inbox && use !in b.wins {
        var i :| 0 <= i < |b.workers| && Active(b.workers[i]) && Use(b.workers[i].copy) == use;
        ActiveEnds(b, m, i);
      }
    }
  }

  lemma InboxBackedStep(b: Broker, m: Move)
    requires InboxBacked(b) && Exclusive(b) && Calm(m)
    ensures InboxBacked(Next(b, m))
  {
    hide Next, Exclusive, Active;
    var b' := Next(b, m);
    forall use | use in b'.inbox
      ensures use in b'.wins || exists i :: 0 <= i < |b'.workers| && Active(b'.workers[i]) && Use(b'.workers[i].copy) == use
    {
      assert Backed(b, use);
      BackedStep(b, m, use);
    }
  }

  /** A fanned-out message reaches the queue it came from again. */
  lemma FanReaches(c: Copy, attempt: nat, copies: seq<Copy>)
    requires c.queue in QueuesFor(c.kind)
    ensures Place(copies + Refan(c, attempt), Use(c))
  {
    FanHas(c.message, c.kind, attempt, c.queue);
    assert Use(Copy(c.queue, c.message, c.kind, attempt)) == Use(c);
  }

  lemma PlaceGrows(copies: seq<Copy>, more: seq<Copy>, use: Consumption)
    requires Place(copies, use)
    ensures Place(copies + more, use)
  {
    var c :| c in copies && Use(c) == use;
    assert c in copies + more;
  }

  /** A worker that is done with a copy has succeeded, found another at it, or passed it on. */
  lemma WorkerStep(b: Broker, m: Move, use: Consumption, i: nat)
    requires AllRouted(b) && Backed(b, use) && Linked(b, use)
    requires i < |b.workers| && Open(b.workers[i]) && Use(b.workers[i].copy) == use
    ensures Accounted(Next(b, m), use)
  {
    hide Fan, QueuesFor;
    var b' := Next(b, m);
    var c := b.workers[i].copy;
    if Open(b'.workers[i]) {
      assert Use(b'.workers[i].copy) == use;
      assert Busy(b'.workers, use);
    } else if m.Record? {
      if use !in b.wins {
        var j :| 0 <= j < |b.workers| && Active(b.workers[j]) && Use(b.workers[j].copy) == use;
        assert b'.workers[j] == b.workers[j];
        assert Busy(b'.workers, use);
      }
    } else if !m.Return? {
      FanReaches(c, c.attempt, b.dlq);
      FanReaches(c, c.attempt + 1, b.retry);
    }
  }

  /** A copy that leaves a queue is at a worker or back in the main queue. */
  lemma QueueStep(b: Broker, m: Move, use: Consumption)
    requires AllRouted(b)
    requires Place(b.main, use) || Place(b.retry, use) || Place(b.dlq, use)
    ensures Accounted(Next(b, m), use)
  {
    hide Fan, QueuesFor;
    var b' := Next(b, m);
    if m.Deliver? && m.i < |b.main| && Use(b.main[m.i]) == use {
      assert Open(b'.workers[|b.workers|]) && Use(b'.workers[|b.workers|].copy) == use;
    } else if m.Expire? && m.i < |b.retry| && Use(b.retry[m.i]) == use {
      assert b.retry[m.i] in b.retry;
      FanReaches(b.retry[m.i], b.retry[m.i].attempt, b.main);
    } else if m.Replay? && m.i < |b.dlq| && Use(b.dlq[m.i]) == use {
      assert b.dlq[m.i] in b.dlq;
      FanReaches(b.dlq[m.i], b.dlq[m.i].attempt, b.main);
    } else {
      QueuesKeep(b, m, use);
    }
  }

  lemma QueuesKeep(b: Broker, m: Move, use: Consumption)
    requires !(m.Deliver? && m.i < |b.main| && Use(b.main[m.i]) == use)
    requires !(m.Expire? && m.i < |b.retry| && Use(b.retry[m.i]) == use)
    requires !(m.Replay? && m.i < |b.dlq| && Use(b.dlq[m.i]) == use)
    ensures Place(b.main, use) ==> Place(Next(b, m).main, use)
    ensures Place(b.retry, use) ==> Place(Next(b, m).retry, use)
    ensures Place(b.dlq, use) ==> Place(Next(b, m).dlq, use)
  {
    hide Fan, QueuesFor;
    if Place(b.main, use) {
      var c :| c in b.main && Use(c) == use;
      if m.Deliver? && m.i < |b.main| {
        WithoutHas(b.main, m.i, c);
      }
      assert c in Next(b, m).main;
    }
    if Place(b.retry, use) {
      var c :| c in b.retry && Use(c) == use;
      if m.Expire? && m.i < |b.retry| {
        WithoutHas(b.retry, m.i, c);
      }
      assert c in Next(b, m).retry;
    }
    if Place(b.dlq, use) {
      var c :| c in b.dlq && Use(c) == use;
      if m.Replay? && m.i < |b.dlq| {
        WithoutHas(b.dlq, m.i, c);
      }
      assert c in Next(b, m).dlq;
    }
  }

  lemma AccountedStep(b: Broker, m: Move, use: Consumption)
    requires AllRouted(b) && Backed(b, use) && Linked(b, use) && Accounted(b, use)
    ensures Accounted(Next(b, m), use)
  {
    if use in b.wins {
      assert use in Next(b, m).wins;
    } else if Busy(b.workers, use) {
      var i :| 0 <= i < |b.workers| && Open(b.workers[i]) && Use(b.workers[i].copy) == use;
      WorkerStep(b, m, use, i);
    } else {
      QueueStep(b, m, use);
    }
  }

  lemma LinkedStep(b: Broker, m: Move, use: Consumption)
    requires Linked(b, use) && !Disconnects(b, m, use)
    ensures Linked(Next(b, m), use)
  {
    hide Fan;
  }

  /** A message was published to the queue of this consumer. */
  ghost predicate IsPublished(b: Broker, use: Consumption) {
    exists i :: 0 <= i < |b.published| && b.published[i].message == use.message && use.queue in QueuesFor(b.published[i].kind)
  }

  ghost predicate Kept(b: Broker, use: Consumption) {
    && Exclusive(b) && AllRouted(b) && Backed(b, use) && Linked(b, use)
    && (IsPublished(b, use) ==> Accounted(b, use))
  }

  lemma KeptStep(b: Broker, m: Move, use: Consumption)
    requires Kept(b, use) && !FailsRelease(b, m, use) && !Disconnects(b, m, use)
    ensures Kept(Next(b, m), use)
  {
    hide Exclusive, AllRouted, Backed, Linked, Accounted, Fan, QueuesFor, FailsRelease, Disconnects;
    ExclusiveStep(b, m);
    RoutedStep(b, m);
    BackedStep(b, m, use);
    LinkedStep(b, m, use);
    var b' := Next(b, m);
    if IsPublished(b', use) {
      var i :| 0 <= i < |b'.published| && b'.published[i].message == use.message && use.queue in QueuesFor(b'.published[i].kind);
      if i < |b.published| {
        assert b'.published[i] == b.published[i];
        AccountedStep(b, m, use);
      } else {
        NewlyPublished(b, m.message, m.kind, use.queue);
      }
    }
  }

  lemma NewlyPublished(b: Broker, message: nat, kind: EventType, q: Queue)
    requires q in QueuesFor(kind)
    ensures Accounted(Next(b, Publish(message, kind)), Consumption(q, message))
  {
    FanReaches(Copy(q, message, kind, 0), 0, b.main);
  }

  lemma {:induction false} KeptRun(b: Broker, ms: seq<Move>, use: Consumption)
    requires Idle(b) && !ReleaseFailed(b, ms, use) && !Disconnected(b, ms, use)
    ensures Kept(Moves(b, ms), use)
  {
    if |ms| > 0 {
      KeptRun(b, ms[..|ms| - 1], use);
      hide Kept, FailsRelease, Disconnects, Next;
      KeptStep(Moves(b, ms[..|ms| - 1]), ms[|ms| - 1], use);
    }
  }

  /** No delivery is lost: for every published message and every queue bound to its routing key the
      consumer has succeeded, or a copy is in that queue, its retry queue, its dead-letter queue or in
      process, as long as no worker of that consumer failed to give back the message's inbox entry or lost
      its connection during the message. Whatever happens to other messages and consumers does not matter. */
  lemma NoDeliveryIsLost(b: Broker, ms: seq<Move>, use: Consumption)
    requires Idle(b) && !ReleaseFailed(b, ms, use) && !Disconnected(b, ms, use)
    requires IsPublished(Moves(b, ms), use)
    ensures Accounted(Moves(b, ms), use)
  {
    hide Moves, Accounted, IsPublished, ReleaseFailed, Disconnected;
    KeptRun(b, ms, use);
  }

  // ------------------------------------------------------------ settled once, stranded for good

  lemma {:induction false} SettledOnce(b: Broker, ms: seq<Move>, w: nat)
    requires w < |b.workers|
    ensures w < |Moves(b, ms).workers| && Moves(b, ms).workers[w].copy == b.workers[w].copy
    ensures !Open(b.workers[w]) ==> Moves(b, ms).workers[w] == b.workers[w]
  {
    hide Next, Open;
    if |ms| > 0 {
      SettledOnce(b, ms[..|ms| - 1], w);
      WorkerKept(Moves(b, ms[..|ms| - 1]), ms[|ms| - 1], w);
    }
  }

  lemma WorkerKept(b: Broker, m: Move, w: nat)
    requires w < |b.workers|
    ensures w < |Next(b, m).workers| && Next(b, m).workers[w].copy == b.workers[w].copy
    ensures !Open(b.workers[w]) ==> Next(b, m).workers[w] == b.workers[w]
  {
    hide Fan;
  }

  /** An inbox entry with neither a success nor a handler behind it. */
  ghost predicate Stranded(b: Broker, use: Consumption) {
    && use in b.inbox && use !in b.wins
    && forall i :: 0 <= i < |b.workers| && Active(b.workers[i]) ==> Use(b.workers[i].copy) != use
  }

  /** Such an entry stays so. Every later delivery, retry or replay of the message is acknowledged as a
      duplicate, and the handler never succeeds. */
  lemma StrandedStep(b: Broker, m: Move, use: Consumption)
    requires Stranded(b, use)
    ensures Stranded(Next(b, m), use)
  {
    hide Fan;
  }

  lemma {:induction false} StrandedForGood(b: Broker, ms: seq<Move>, use: Consumption)
    requires Stranded(b, use)
    ensures Stranded(Moves(b, ms), use)
  {
    hide Stranded, Next;
    if |ms| > 0 {
      StrandedForGood(b, ms[..|ms| - 1], use);
      StrandedStep(Moves(b, ms[..|ms| - 1]), ms[|ms| - 1], use);
    }
  }

  /** A failed inbox release strands the message. */
  lemma FailedReleaseStrands(b: Broker, m: Move, use: Consumption)
    requires Exclusive(b) && FailsRelease(b, m, use)
    ensures Stranded(Next(b, m), use)
  {
    hide Fan, NoRepeat;
    var b' := Next(b, m);
    forall i | 0 <= i < |b'.workers| && Active(b'.workers[i]) ensures Use(b'.workers[i].copy) != use {
      assert i != m.w && b'.workers[i] == b.workers[i];
    }
  }

  /** In every run, a message is blocked for a consumer if and only if one of the consumer's workers once
      failed to give back its inbox entry. */
  lemma {:induction false} StrandedExactlyWhen(b: Broker, ms: seq<Move>, use: Consumption)
    requires Idle(b)
    ensures Stranded(Moves(b, ms), use) <==> ReleaseFailed(b, ms, use)
  {
    if |ms| > 0 {
      var front, m := ms[..|ms| - 1], ms[|ms| - 1];
      var before := Moves(b, front);
      StrandedExactlyWhen(b, front, use);
      ExclusiveRun(b, front);
      hide Stranded, Exclusive, Next, FailsRelease, Backed, Idle;
      if ReleaseFailed(b, front, use) {
        StrandedStep(before, m, use);
      } else if FailsRelease(before, m, use) {
        FailedReleaseStrands(before, m, use);
      } else {
        StrandedIsUnbacked(before, use);
        StrandedIsUnbacked(Next(before, m), use);
        BackedStep(before, m, use);
      }
    }
  }

  lemma StrandedIsUnbacked(b: Broker, use: Consumption)
    ensures Stranded(b, use) <==> !Backed(b, use)
  {
  }

  // ------------------------------------------------------------ both conditions are needed

  function Opening(c: Copy): (ms: seq<Move>) {
    [Publish(c.message, c.kind), Deliver(0), Record(0)]
  }

  function Blocking(): (ms: seq<Move>) {
    [Return(0, false), Free(0, false), Replay(0)]
  }

  function Duplicate(): (ms: seq<Move>) {
    [Deliver(0), Record(1)]
  }

  function Cutting(): (ms: seq<Move>) {
    [Requeue(0), Deliver(0), Record(1)]
  }

  function Failing(): (ms: seq<Move>) {
    [Return(0, false), Free(0, true), Resolve(0, false)]
  }

  function Three(x: seq<Move>, y: seq<Move>, z: seq<Move>): (ms: seq<Move>) {
    x + y + z
  }

  lemma {:induction false} MovesConcat(b: Broker, ms: seq<Move>, more: seq<Move>)
    ensures Moves(Moves(b, ms), more) == Moves(b, ms + more)
  {
    hide Next;
    if |more| == 0 {
      assert ms + more == ms;
    } else {
      MovesConcat(b, ms, more[..|more| - 1]);
      assert (ms + more)[..|ms + more| - 1] == ms + more[..|more| - 1];
    }
  }

  lemma ThreeMoves(b: Broker, m1: Move, m2: Move, m3: Move)
    ensures Moves(b, [m1, m2, m3]) == Next(Next(Next(b, m1), m2), m3)
  {
    hide Next;
    assert [m1, m2, m3][..2] == [m1, m2] && [m1, m2][..1] == [m1] && [m1][..0] == [];
    assert Moves(b, [m1]) == Next(Moves(b, []), m1);
    assert Moves(b, [m1, m2]) == Next(Moves(b, [m1]), m2);
  }

  /** A broker that does nothing but handle one message of one queue. */
  ghost predicate Alone(b: Broker, c: Copy, phases: seq<Phase>, main: seq<Copy>, dlq: seq<Copy>) {
    && b.main == main && b.dlq == dlq && b.retry == [] && b.wins == []
    && |b.workers| == |phases| && (forall i :: 0 <= i < |phases| ==> b.workers[i] == Worker(c, phases[i]))
    && b.published == [Publication(c.message, c.kind)] && QueuesFor(c.kind) == [c.queue] && c.attempt == 0
  }

  lemma AloneFan(c: Copy)
    requires QueuesFor(c.kind) == [c.queue] && c.attempt == 0
    ensures Fan(c.message, c.kind, 0) == [c]
  {
  }

  lemma FirstHandling(b: Broker, c: Copy)
    requires Idle(b) && QueuesFor(c.kind) == [c.queue] && c.attempt == 0
    ensures var b' := Moves(b, Opening(c));
      Alone(b', c, [Handling], [], []) && b'.inbox == {Use(c)} && b'.cut == {}
  {
    ThreeMoves(b, Publish(c.message, c.kind), Deliver(0), Record(0));
    AloneFan(c);
    hide QueuesFor, Fan, Moves;
    var b1 := Next(b, Publish(c.message, c.kind));
    assert b1.main == [c];
    var b2 := Next(b1, Deliver(0));
    assert b2.main == [] && b2.workers == [Worker(c, Received)];
  }

  lemma NoneLeft(b: Broker, c: Copy, phases: seq<Phase>)
    requires Alone(b, c, phases, [], []) && forall i :: 0 <= i < |phases| ==> phases[i] == Acked || phases[i] == Nacked
    ensures IsPublished(b, Use(c)) && !Accounted(b, Use(c))
  {
    assert b.published[0] == Publication(c.message, c.kind);
  }

  lemma ReplayBlocked(b: Broker, c: Copy)
    requires Alone(b, c, [Handling], [], []) && b.inbox == {Use(c)} && b.cut == {}
    ensures var b' := Moves(b, Blocking());
      Alone(b', c, [Nacked], [c], []) && b'.inbox == {Use(c)}
  {
    ThreeMoves(b, Return(0, false), Free(0, false), Replay(0));
    AloneFan(c);
    hide QueuesFor, Fan, Moves;
    var b2 := Next(Next(b, Return(0, false)), Free(0, false));
    assert b2.dlq == [c] && b2.main == [];
    assert Without(b2.dlq, 0) == [];
  }

  /** The copy in the main queue is delivered and taken for a duplicate. */
  lemma TakenForDuplicate(b: Broker, c: Copy, phase: Phase)
    requires Alone(b, c, [phase], [c], []) && Use(c) in b.inbox
    ensures var b' := Moves(b, Duplicate());
      Alone(b', c, [phase, Acked], [], []) && b'.inbox == b.inbox && b'.cut == b.cut
  {
    TwoMoves(b, Deliver(0), Record(1));
    hide Moves;
    assert Without(b.main, 0) == [];
  }

  /** Both conditions of NoDeliveryIsLost are needed. A message whose inbox entry was not given back is lost
      when its dead letter is replayed: it is acknowledged as a duplicate and no copy is left anywhere. */
  lemma BlockedMessageIsLost(b: Broker, c: Copy) returns (ms: seq<Move>)
    requires Idle(b) && QueuesFor(c.kind) == [c.queue] && c.attempt == 0
    ensures IsPublished(Moves(b, ms), Use(c)) && !Accounted(Moves(b, ms), Use(c)) && !Disconnected(b, ms, Use(c))
  {
    ms := Three(Opening(c), Blocking(), Duplicate());
    hide Moves, Alone, IsPublished, Accounted, Next, Opening, Blocking, Duplicate, Three;
    ThreeParts(b, Opening(c), Blocking(), Duplicate());
    FirstHandling(b, c);
    var b1 := Moves(b, Opening(c));
    ReplayBlocked(b1, c);
    var b2 := Moves(b1, Blocking());
    TakenForDuplicate(b2, c, Nacked);
    NoneLeft(Moves(b2, Duplicate()), c, [Nacked, Acked]);
    NoneRequeues(c);
    NeverDisconnected(b, ms, Use(c));
  }

  lemma ThreeParts(b: Broker, x: seq<Move>, y: seq<Move>, z: seq<Move>)
    ensures Moves(b, Three(x, y, z)) == Moves(Moves(Moves(b, x), y), z)
  {
    hide Moves;
    MovesConcat(b, x, y);
    MovesConcat(b, x + y, z);
  }

  lemma NoneRequeues(c: Copy)
    ensures forall m :: m in Three(Opening(c), Blocking(), Duplicate()) ==> !m.Requeue?
  {
  }

  lemma AllRelease(c: Copy)
    ensures forall m :: m in Three(Opening(c), Cutting(), Failing()) ==> m.Free? ==> m.ok
  {
  }

  lemma TwoMoves(b: Broker, m1: Move, m2: Move)
    ensures Moves(b, [m1, m2]) == Next(Next(b, m1), m2)
  {
    hide Next;
    assert [m1, m2][..1] == [m1] && [m1][..0] == [];
    assert Moves(b, [m1]) == Next(Moves(b, []), m1);
  }

  lemma {:induction false} NeverDisconnected(b: Broker, ms: seq<Move>, use: Consumption)
    requires forall m :: m in ms ==> !m.Requeue?
    ensures !Disconnected(b, ms, use)
  {
    hide Moves;
    if |ms| > 0 {
      NeverDisconnected(b, ms[..|ms| - 1], use);
    }
  }

  lemma {:induction false} NeverFailed(b: Broker, ms: seq<Move>, use: Consumption)
    requires forall m :: m in ms ==> m.Free? ==> m.ok
    ensures !ReleaseFailed(b, ms, use)
  {
    hide Moves;
    if |ms| > 0 {
      NeverFailed(b, ms[..|ms| - 1], use);
    }
  }

  lemma GivesUp(b: Broker, c: Copy)
    requires Alone(b, c, [Handling, Acked], [], []) && 0 in b.cut
    ensures Alone(Moves(b, Failing()), c, [Nacked, Acked], [], [])
  {
    ThreeMoves(b, Return(0, false), Free(0, true), Resolve(0, false));
    hide QueuesFor, Refan, Moves;
    var b2 := Next(Next(b, Return(0, false)), Free(0, true));
    assert At(b2, 0, Released) && b2.workers[1] == b.workers[1] && 0 in b2.cut;
  }

  lemma LosesConnection(b: Broker, c: Copy)
    requires Alone(b, c, [Handling], [], []) && b.inbox == {Use(c)} && b.cut == {}
    ensures var b' := Moves(b, Cutting()); Alone(b', c, [Handling, Acked], [], []) && 0 in b'.cut
  {
    var b1 := Next(b, Requeue(0));
    assert Alone(b1, c, [Handling], [c], []) && b1.inbox == b.inbox && b1.cut == {0};
    ThreeMoves(b, Requeue(0), Deliver(0), Record(1));
    TwoMoves(b1, Deliver(0), Record(1));
    hide Moves, Next, Alone;
    TakenForDuplicate(b1, c, Handling);
  }

  /** And a message whose connection is lost while its handler runs is lost if its redelivery is taken for a
      duplicate and the handler then fails. */
  lemma RedeliveredMessageIsLost(b: Broker, c: Copy) returns (ms: seq<Move>)
    requires Idle(b) && QueuesFor(c.kind) == [c.queue] && c.attempt == 0
    ensures IsPublished(Moves(b, ms), Use(c)) && !Accounted(Moves(b, ms), Use(c)) && !ReleaseFailed(b, ms, Use(c))
  {
    ms := Three(Opening(c), Cutting(), Failing());
    hide Moves, Alone, IsPublished, Accounted, Next, Opening, Cutting, Failing, Three;
    ThreeParts(b, Opening(c), Cutting(), Failing());
    FirstHandling(b, c);
    var b1 := Moves(b, Opening(c));
    LosesConnection(b1, c);
    var b2 := Moves(b1, Cutting());
    GivesUp(b2, c);
    NoneLeft(Moves(b2, Failing()), c, [Nacked, Acked]);
    AllRelease(c);
    NeverFailed(b, ms, Use(c));
  }
}
