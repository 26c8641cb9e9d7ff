/** The attempt numbers copies carry: no hop takes attempts back, and only a retry adds one. */
module DeliveryAttempts {
  import opened OrderModel
  import opened Delivery

  // ------------------------------------------------------------ attempts are never taken back

  ghost predicate TriedAll(copies: seq<Copy>, x: nat, a: nat) {
    forall c :: c in copies && c.message == x ==> c.attempt >= a
  }

  /** Every copy of the message, wherever it is, has at least this many attempts behind it. */
  ghost predicate Tried(b: Broker, x: nat, a: nat) {
    && TriedAll(b.main, x, a) && TriedAll(b.retry, x, a) && TriedAll(b.dlq, x, a)
    && forall i :: 0 <= i < |b.workers| && Open(b.workers[i]) && b.workers[i].copy.message == x ==>
         b.workers[i].copy.attempt >= a
  }

  ghost predicate Absent(copies: seq<Copy>, x: nat) {
    forall c :: c in copies ==> c.message != x
  }

  lemma FanTried(copies: seq<Copy>, message: nat, kind: EventType, attempt: nat, x: nat, a: nat)
    requires TriedAll(copies, x, a) && (message == x ==> attempt >= a)
    ensures TriedAll(copies + Fan(message, kind, attempt), x, a)
  {
  }

  lemma WithoutTried(copies: seq<Copy>, i: nat, x: nat, a: nat)
    requires TriedAll(copies, x, a) && i < |copies|
    ensures TriedAll(Without(copies, i), x, a) && (copies[i].message == x ==> copies[i].attempt >= a)
  {
    assert copies[i] in copies;
    forall c | c in Without(copies, i) && c.message == x
      ensures c.attempt >= a
    {
      WithoutHas(copies, i, c);
    }
  }

  lemma RefanTried(b: Broker, c: Copy, x: nat, a: nat)
    requires Tried(b, x, a) && (c.message == x ==> c.attempt >= a)
    ensures TriedAll(b.main + Refan(c, c.attempt), x, a) && TriedAll(b.dlq + Refan(c, c.attempt), x, a)
    ensures TriedAll(b.retry + Refan(c, c.attempt + 1), x, a) && TriedAll(b.main + [c], x, a)
  {
    hide TriedAll, Fan;
    FanTried(b.main, c.message, c.kind, c.attempt, x, a);
    FanTried(b.dlq, c.message, c.kind, c.attempt, x, a);
    FanTried(b.retry, c.message, c.kind, c.attempt + 1, x, a);
    OneTried(b.main, c, x, a);
  }

  lemma OneTried(copies: seq<Copy>, c: Copy, x: nat, a: nat)
    requires TriedAll(copies, x, a) && (c.message == x ==> c.attempt >= a)
    ensures TriedAll(copies + [c], x, a)
  {
  }

  lemma TriedStep(b: Broker, m: Move, x: nat, a: nat)
    requires Tried(b, x, a) && !(m.Publish? && m.message == x)
    ensures Tried(Next(b, m), x, a)
  {
    hide TriedAll, Refan, Fan, Without;
    match m
    case Publish(message, kind) => FanTried(b.main, message, kind, 0, x, a);
    case Deliver(i) => if i < |b.main| { WithoutTried(b.main, i, x, a); }
    case Expire(i) => if i < |b.retry| { WithoutTried(b.retry, i, x, a); RefanTried(b, b.retry[i], x, a); }
    case Replay(i) => if i < |b.dlq| { WithoutTried(b.dlq, i, x, a); RefanTried(b, b.dlq[i], x, a); }
    case _ => if m.w < |b.workers| && Open(b.workers[m.w]) { RefanTried(b, b.workers[m.w].copy, x, a); }
  }

  /** No operation, a replay by an operator included, takes attempts back: unless the message is published
      anew, every later copy of it has at least as many attempts behind it. */
  lemma {:induction false} AttemptsNeverFall(b: Broker, ms: seq<Move>, x: nat, a: nat)
    requires Tried(b, x, a) && forall i :: 0 <= i < |ms| && ms[i].Publish? ==> ms[i].message != x
    ensures Tried(Moves(b, ms), x, a)
  {
    hide Tried, Next;
    if |ms| > 0 {
      AttemptsNeverFall(b, ms[..|ms| - 1], x, a);
      TriedStep(Moves(b, ms[..|ms| - 1]), ms[|ms| - 1], x, a);
    }
  }

  lemma AbsentStep(b: Broker, m: Move, x: nat)
    requires Tried(b, x, b.retries) && Absent(b.retry, x)
    ensures Absent(Next(b, m).retry, x) && Next(b, m).retries == b.retries
  {
    hide TriedAll;
    if m.Expire? && m.i < |b.retry| {
      forall c | c in Without(b.retry, m.i) ensures c.message != x {
        WithoutHas(b.retry, m.i, c);
      }
    }
  }

  /** Once every copy of a message has used up its retries, no replay, redelivery or failure ever brings it
      back to a retry queue. */
  lemma {:induction false} RetriesStayUsedUp(b: Broker, ms: seq<Move>, x: nat)
    requires Tried(b, x, b.retries) && Absent(b.retry, x)
    requires forall i :: 0 <= i < |ms| && ms[i].Publish? ==> ms[i].message != x
    ensures Absent(Moves(b, ms).retry, x) && Moves(b, ms).retries == b.retries
  {
    hide Tried, Next, Absent;
    if |ms| > 0 {
      var front := ms[..|ms| - 1];
      RetriesStayUsedUp(b, front, x);
      AttemptsNeverFall(b, front, x, b.retries);
      AbsentStep(Moves(b, front), ms[|ms| - 1], x);
    }
  }

  // ------------------------------------------------------------ only a retry adds an attempt

  ghost predicate WithinAll(copies: seq<Copy>, x: nat, a: nat) {
    forall c :: c in copies && c.message == x ==> c.attempt <= a
  }

  /** No copy of the message has more than this many attempts behind it. */
  ghost predicate Within(b: Broker, x: nat, a: nat) {
    && WithinAll(b.main, x, a) && WithinAll(b.retry, x, a) && WithinAll(b.dlq, x, a)
    && forall i :: 0 <= i < |b.workers| && b.workers[i].copy.message == x ==> b.workers[i].copy.attempt <= a
  }

  lemma FanWithin(copies: seq<Copy>, message: nat, kind: EventType, attempt: nat, x: nat, a: nat)
    requires WithinAll(copies, x, a) && (message == x ==> attempt <= a)
    ensures WithinAll(copies + Fan(message, kind, attempt), x, a)
  {
  }

  lemma WithoutWithin(copies: seq<Copy>, i: nat, x: nat, a: nat)
    requires WithinAll(copies, x, a) && i < |copies|
    ensures WithinAll(Without(copies, i), x, a) && (copies[i].message == x ==> copies[i].attempt <= a)
  {
    assert copies[i] in copies;
    forall c | c in Without(copies, i) && c.message == x
      ensures c.attempt <= a
    {
      WithoutHas(copies, i, c);
    }
  }

  lemma RefanWithin(b: Broker, c: Copy, x: nat, a: nat)
    requires Within(b, x, a) && (c.message == x ==> c.attempt <= a)
    ensures WithinAll(b.main + Refan(c, c.attempt), x, a) && WithinAll(b.dlq + Refan(c, c.attempt), x, a)
    ensures WithinAll(b.main + [c], x, a)
  {
    hide Fan;
    FanWithin(b.main, c.message, c.kind, c.attempt, x, a);
    FanWithin(b.dlq, c.message, c.kind, c.attempt, x, a);
  }

  lemma Wider(b: Broker, x: nat, a: nat)
    requires Within(b, x, a)
    ensures Within(b, x, a + 1)
  {
  }

  predicate Retries(m: Move) {
    m.Resolve? && m.accepted
  }

  lemma WithinStep(b: Broker, m: Move, x: nat, a: nat)
    requires Within(b, x, a) && !Retries(m)
    ensures Within(Next(b, m), x, a)
  {
    hide WithinAll, Refan, Fan, Without;
    match m
    case Publish(message, kind) => FanWithin(b.main, message, kind, 0, x, a);
    case Deliver(i) => if i < |b.main| { WithoutWithin(b.main, i, x, a); }
    case Expire(i) => if i < |b.retry| { WithoutWithin(b.retry, i, x, a); RefanWithin(b, b.retry[i], x, a); }
    case Replay(i) => if i < |b.dlq| { WithoutWithin(b.dlq, i, x, a); RefanWithin(b, b.dlq[i], x, a); }
    case _ => if m.w < |b.workers| { RefanWithin(b, b.workers[m.w].copy, x, a); }
  }

  lemma RetryStep(b: Broker, m: Move, x: nat, a: nat)
    requires Within(b, x, a) && Retries(m)
    ensures Within(Next(b, m), x, if a < b.retries then a + 1 else a)
  {
    hide WithinAll, Refan, Fan;
    Wider(b, x, a);
    var a' := if a < b.retries then a + 1 else a;
    if At(b, m.w, Released) {
      var c := b.workers[m.w].copy;
      RefanWithin(b, c, x, a');
      if MayRetry(b, c) {
        RefanIs(c, c.attempt + 1);
        FanWithin(b.retry, c.message, c.kind, c.attempt + 1, x, a');
      }
    }
  }

  lemma RefanIs(c: Copy, attempt: nat)
    ensures Refan(c, attempt) == Fan(c.message, c.kind, attempt)
  {
  }

  /** The retries the broker accepted in a run. */
  function RetryCount(ms: seq<Move>): (n: nat) {
    if |ms| == 0 then 0 else RetryCount(ms[..|ms| - 1]) + if Retries(ms[|ms| - 1]) then 1 else 0
  }

  /** Only a retry adds an attempt, and never beyond the limit. */
  lemma {:induction false} AttemptsCountRetries(b: Broker, ms: seq<Move>, x: nat)
    requires Idle(b)
    ensures var b', n := Moves(b, ms), RetryCount(ms);
      b'.retries == b.retries && Within(b', x, if n < b.retries then n else b.retries)
  {
    hide Next, Idle;
    if |ms| == 0 {
      IdleWithin(b, x);
    } else {
      var front, m := ms[..|ms| - 1], ms[|ms| - 1];
      AttemptsCountRetries(b, front, x);
      hide Within, Moves;
      var n := RetryCount(front);
      var a := if n < b.retries then n else b.retries;
      RetriesStay(Moves(b, front), m);
      if Retries(m) {
        RetryStep(Moves(b, front), m, x, a);
      } else {
        WithinStep(Moves(b, front), m, x, a);
      }
      OneMoreMove(b, ms);
    }
  }

  lemma IdleWithin(b: Broker, x: nat)
    requires Idle(b)
    ensures Within(b, x, 0)
  {
  }

  lemma RetriesStay(b: Broker, m: Move)
    ensures Next(b, m).retries == b.retries
  {
  }

  lemma OneMoreMove(b: Broker, ms: seq<Move>)
    requires |ms| > 0
    ensures Moves(b, ms) == Next(Moves(b, ms[..|ms| - 1]), ms[|ms| - 1])
  {
  }
}
