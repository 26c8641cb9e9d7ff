/** One delivery through a consumer (internal/messaging/consumer.go) and the inboxes it can use
    (internal/messaging/inbox.go, the inbox table of internal/postgres/store.go). */
module Consumer {
  import opened OrderModel
  import opened OrderStore
  import opened StoreAgreement
  import opened Topology
  import opened Delivery

  // ------------------------------------------------------------ inboxes

  /** The inbox table: one row per consumer and message. */
  class InboxTable {
    var rows: set<Consumption>

    constructor ()
      ensures rows == {}
    {
      rows := {};
    }

    /** The insert ignores a conflict and reports whether it added a row. */
    method RecordInboxMessage(use: Consumption) returns (recorded: bool)
      modifies this
      ensures recorded <==> use !in old(rows)
      ensures rows == old(rows) + {use}
    {
      recorded := use !in rows;
      rows := rows + {use};
    }

    method ReleaseInboxMessage(use: Consumption)
      modifies this
      ensures rows == old(rows) - {use}
    {
      rows := rows - {use};
    }
  }

  /** The in-memory inbox joins consumer and message with a colon. */
  class MemoryInbox {
    var processed: set<string>

    constructor ()
      ensures processed == {}
    {
      processed := {};
    }

    method Record(consumer: string, message: string) returns (recorded: bool)
      modifies this
      ensures (processed, recorded) == ByText(old(processed), Recording(consumer, message))
    {
      var key := consumer + ":" + message;
      if key in processed {
        assert processed == processed + {key};
        return false;
      }
      processed := processed + {key};
      recorded := true;
    }

    method Release(consumer: string, message: string)
      modifies this
      ensures processed == ByText(old(processed), Releasing(consumer, message)).0
    {
      processed := processed - {consumer + ":" + message};
    }
  }

  datatype InboxCall = Recording(consumer: string, message: string) | Releasing(consumer: string, message: string)

  /** A call on joined keys: the new keys, and whether a key was added. */
  function ByText(keys: set<string>, call: InboxCall): (r: (set<string>, bool)) {
    var key := ScopedKey(call.consumer, call.message);
    if call.Recording? then (keys + {key}, key !in keys) else (keys - {key}, false)
  }

  /** The same call on pairs. */
  function ByPair(pairs: set<(string, string)>, call: InboxCall): (r: (set<(string, string)>, bool)) {
    var pair := (call.consumer, call.message);
    if call.Recording? then (pairs + {pair}, pair !in pairs) else (pairs - {pair}, false)
  }

  function TextRun(calls: seq<InboxCall>): (keys: set<string>) {
    if |calls| == 0 then {} else ByText(TextRun(calls[..|calls| - 1]), calls[|calls| - 1]).0
  }

  function PairRun(calls: seq<InboxCall>): (pairs: set<(string, string)>) {
    if |calls| == 0 then {} else ByPair(PairRun(calls[..|calls| - 1]), calls[|calls| - 1]).0
  }

  ghost predicate PlainCalls(calls: seq<InboxCall>) {
    forall i :: 0 <= i < |calls| ==> Plain(calls[i].consumer)
  }

  lemma {:induction false} TextFollowsPairs(calls: seq<InboxCall>, consumer: string, message: string)
    requires PlainCalls(calls) && Plain(consumer)
    ensures ScopedKey(consumer, message) in TextRun(calls) <==> (consumer, message) in PairRun(calls)
  {
    if |calls| > 0 {
      var last := calls[|calls| - 1];
      TextFollowsPairs(calls[..|calls| - 1], consumer, message);
      hide ScopedKey, Plain;
      if ScopedKey(consumer, message) == ScopedKey(last.consumer, last.message) {
        PlainKeysAreDistinct(consumer, message, last.consumer, last.message);
      }
    }
  }

  /** After any calls, the joined keys answer the next call as a table of pairs would, for consumer
      names without a colon. */
  lemma InboxesAnswerAlike(calls: seq<InboxCall>, next: InboxCall)
    requires PlainCalls(calls) && Plain(next.consumer)
    ensures ByText(TextRun(calls), next).1 == ByPair(PairRun(calls), next).1
  {
    TextFollowsPairs(calls, next.consumer, next.message);
  }

  // ------------------------------------------------------------ one delivery

  /** What the environment decides during one delivery. */
  datatype Env = Env(decodes: bool, inboxUp: bool, handles: bool, releases: bool, retryAccepted: bool)

  datatype Settlement = Ack | DeadLetter

  /** Whether the handler ran, the attempt number of a published retry, and how the delivery was settled. */
  datatype Effects = Effects(ran: bool, retried: Option<nat>, settled: Settlement)

  /** No retry publisher means no retries; a count that is not positive means the default. */
  function MaxRetries(configured: int, publisher: bool): (n: nat) {
    if !publisher then 0 else if configured > 0 then configured else DEFAULT_MAX_RETRIES
  }

  /** The inbox rows left by one delivery, and its effects. */
  function Processed(rows: set<Consumption>, retries: nat, c: Copy, env: Env): (r: (set<Consumption>, Effects)) {
    var use := Use(c);
    if !env.decodes || !env.inboxUp then (rows, Effects(false, None, DeadLetter))
    else if use in rows then (rows, Effects(false, None, Ack))
    else if env.handles then (rows + {use}, Effects(true, None, Ack))
    else if !env.releases then (rows + {use}, Effects(true, None, DeadLetter))
    else if c.attempt < retries && env.retryAccepted then (rows, Effects(true, Some(c.attempt + 1), Ack))
    else (rows, Effects(true, None, DeadLetter))
  }

  method ProcessDelivery(inbox: InboxTable, configured: int, publisher: bool, c: Copy, env: Env) returns (e: Effects)
    modifies inbox
    ensures inbox.rows == Processed(old(inbox.rows), MaxRetries(configured, publisher), c, env).0
    ensures e == Processed(old(inbox.rows), MaxRetries(configured, publisher), c, env).1
    ensures e.ran <==> env.decodes && env.inboxUp && Use(c) !in old(inbox.rows)
    ensures e.ran && !env.handles && env.releases && env.retryAccepted ==>
      (e.retried.Some? <==> publisher && c.attempt < (if configured > 0 then configured else 3))
    ensures e.retried.Some? ==> e.retried.value == c.attempt + 1 && e.settled == Ack && e.ran && !env.handles && env.releases
    ensures e.ran && !env.handles && e.retried.None? ==> e.settled == DeadLetter
  {
    if !env.decodes {
      return Effects(false, None, DeadLetter);
    }
    if !env.inboxUp {
      return Effects(false, None, DeadLetter);
    }
    var recorded := inbox.RecordInboxMessage(Use(c));
    if !recorded {
      return Effects(false, None, Ack);
    }
    if !env.handles {
      if !env.releases {
        return Effects(true, None, DeadLetter);
      }
      inbox.ReleaseInboxMessage(Use(c));
      if publisher && c.attempt < (if configured > 0 then configured else DEFAULT_MAX_RETRIES) {
        var attempt := c.attempt + 1;
        if !env.retryAccepted {
          return Effects(true, None, DeadLetter);
        }
        return Effects(true, Some(attempt), Ack);
      }
      return Effects(true, None, DeadLetter);
    }
    e := Effects(true, None, Ack);
  }

  /** The moves of the delivery protocol that worker `w` makes for one delivery. A move that is not
      enabled any more, because the delivery is settled, changes nothing. */
  function Script(w: nat, env: Env): (ms: seq<Move>) {
    if !env.decodes then [Malformed(w)]
    else if !env.inboxUp then [InboxDown(w)]
    else [Record(w), Return(w, env.handles), Free(w, env.releases), Resolve(w, env.retryAccepted)]
  }

  /** Two brokers differ only by what one processed delivery of worker `w` did. */
  ghost predicate Delivered(b: Broker, b': Broker, w: nat, env: Env)
    requires w < |b.workers|
  {
    var c := b.workers[w].copy;
    var (rows, e) := Processed(b.inbox, b.retries, c, env);
    && b'.retries == b.retries && b'.main == b.main && b'.published == b.published
    && b'.inbox == rows
    && b'.workers == b.workers[w := Worker(c, if e.settled == Ack then Acked else Nacked)] && b'.cut == b.cut
    && b'.retry == b.retry + (if e.retried.Some? then Refan(c, e.retried.value) else [])
    && b'.dlq == b.dlq + (if e.settled == DeadLetter then Refan(c, c.attempt) else [])
    && b'.wins == b.wins + (if e.ran && env.handles then [Use(c)] else [])
    && b'.losses == b.losses + (if e.ran && !env.handles then {Use(c)} else {})
  }

  lemma ScriptUnfolds(b: Broker, m1: Move, m2: Move, m3: Move, m4: Move)
    ensures Moves(b, [m1, m2, m3, m4]) == Next(Next(Next(Next(b, m1), m2), m3), m4)
  {
    hide Next;
    var ms := [m1, m2, m3, m4];
    assert ms[..3] == [m1, m2, m3] && ms[..3][..2] == [m1, m2] && ms[..3][..2][..1] == [m1];
    OneMove(b, m1);
    assert Moves(b, [m1, m2]) == Next(Next(b, m1), m2);
    assert Moves(b, [m1, m2, m3]) == Next(Next(Next(b, m1), m2), m3);
  }

  /** Processing one delivery whose connection holds is a run of the protocol: it settles the delivery exactly once, and the
      protocol's queues, inbox and logs change by exactly its effects. */
  lemma ProcessingIsARun(b: Broker, w: nat, env: Env)
    requires At(b, w, Received) && w !in b.cut
    ensures Delivered(b, Moves(b, Script(w, env)), w, env)
  {
    hide Refan, Moves;
    if !env.decodes || !env.inboxUp {
      OneMove(b, Script(w, env)[0]);
    } else {
      ScriptUnfolds(b, Record(w), Return(w, env.handles), Free(w, env.releases), Resolve(w, env.retryAccepted));
      var c, b1 := b.workers[w].copy, Next(b, Record(w));
      if Use(c) in b.inbox {
        assert b1.workers == b.workers[w := Worker(c, Acked)];
      } else {
        assert b1.workers == b.workers[w := Worker(c, Handling)];
        var b2 := Next(b1, Return(w, env.handles));
        assert b2.workers == b.workers[w := Worker(c, if env.handles then Acked else Failed)];
        if !env.handles {
          FailureIsSettled(b2, w, env);
        }
      }
    }
  }

  /** A failed handler: release, then retry or give up. */
  lemma FailureIsSettled(b: Broker, w: nat, env: Env)
    requires At(b, w, Failed) && w !in b.cut
    ensures var c, b' := b.workers[w].copy, Next(Next(b, Free(w, env.releases)), Resolve(w, env.retryAccepted));
      var again := env.releases && c.attempt < b.retries && env.retryAccepted;
      && b' == b.(
           inbox := if env.releases then b.inbox - {Use(c)} else b.inbox,
           workers := b.workers[w := Worker(c, if again then Acked else Nacked)],
           retry := b.retry + (if again then Refan(c, c.attempt + 1) else []),
           dlq := b.dlq + (if again then [] else Refan(c, c.attempt)))
  {
    hide Refan;
    var c, b1 := b.workers[w].copy, Next(b, Free(w, env.releases));
    assert b1.workers == b.workers[w := Worker(c, if env.releases then Released else Nacked)];
  }

  lemma OneMove(b: Broker, m: Move)
    ensures Moves(b, [m]) == Next(b, m)
  {
    assert [m][..0] == [];
  }
}
