/** The outbox as the relay sees it: leases, claims and marks (internal/commerce/store.go:360-387
    and 436-443, internal/postgres/store.go:895-941). Times are in seconds. */
module Outbox {
  import opened OrderModel

  const LEASE_SECONDS: int := 30

  datatype Box = Box(events: seq<Event>, published: map<nat, int>, claimed: map<nat, int>)

  /** Neither published nor under a lease that is still running. */
  predicate Claimable(box: Box, id: nat, now: int) {
    id !in box.published && (id !in box.claimed || box.claimed[id] <= now)
  }

  /** No earlier event has the same ID. A repeated ID would be under its own new lease by then. */
  predicate Leads(box: Box, j: nat)
    requires j < |box.events|
  {
    forall i :: 0 <= i < j ==> box.events[i].id != box.events[j].id
  }

  /** An event a claim would hand out if its limit allowed. */
  predicate Due(box: Box, j: nat, now: int)
    requires j < |box.events|
  {
    Claimable(box, box.events[j].id, now) && Leads(box, j)
  }

  /** The due ones among the first `n` events, in outbox order. */
  function ClaimableAmong(box: Box, n: nat, now: int): (r: seq<Event>)
    requires n <= |box.events|
  {
    if n == 0 then []
    else ClaimableAmong(box, n - 1, now) + if Due(box, n - 1, now) then [box.events[n - 1]] else []
  }

  function Take<T>(xs: seq<T>, n: int): (r: seq<T>) {
    if n < 0 then [] else if n < |xs| then xs[..n] else xs
  }

  /** A limit of zero or less means no limit. */
  function Most(box: Box, limit: int): (n: int) {
    if limit <= 0 then |box.events| else limit
  }

  function Batch(box: Box, limit: int, now: int): (r: seq<Event>) {
    Take(ClaimableAmong(box, |box.events|, now), Most(box, limit))
  }

  function Lease(claimed: map<nat, int>, batch: seq<Event>, until: int): (r: map<nat, int>) {
    if |batch| == 0 then claimed else Lease(claimed, batch[..|batch| - 1], until)[batch[|batch| - 1].id := until]
  }

  function Claim(box: Box, limit: int, now: int): (r: (Box, seq<Event>)) {
    var batch := Batch(box, limit, now);
    (box.(claimed := Lease(box.claimed, batch, now + LEASE_SECONDS)), batch)
  }

  function Mark(box: Box, id: nat, at: int): (r: Box) {
    box.(published := box.published[id := at], claimed := box.claimed - {id})
  }

  // ------------------------------------------------------------ one claim

  /** What is claimable among the first events comes first. */
  lemma {:induction false} Prefix(box: Box, n: nat, now: int)
    requires n <= |box.events|
    ensures ClaimableAmong(box, n, now) <= ClaimableAmong(box, |box.events|, now)
    decreases |box.events| - n
  {
    if n < |box.events| {
      Prefix(box, n + 1, now);
    }
  }

  ghost predicate Has(batch: seq<Event>, id: nat) {
    exists i :: 0 <= i < |batch| && batch[i].id == id
  }

  lemma {:induction false} LeaseCovers(claimed: map<nat, int>, batch: seq<Event>, until: int, id: nat)
    ensures Has(batch, id) ==> id in Lease(claimed, batch, until) && Lease(claimed, batch, until)[id] == until
    ensures !Has(batch, id) ==>
      && (id in Lease(claimed, batch, until) <==> id in claimed)
      && (id in claimed ==> Lease(claimed, batch, until)[id] == claimed[id])
  {
    if |batch| > 0 {
      var front := batch[..|batch| - 1];
      LeaseCovers(claimed, front, until, id);
      if Has(front, id) {
        var i :| 0 <= i < |front| && front[i].id == id;
        assert batch[i].id == id;
      }
      if Has(batch, id) && batch[|batch| - 1].id != id {
        var i :| 0 <= i < |batch| && batch[i].id == id;
        assert front[i].id == id;
      }
    }
  }

  lemma {:induction false} OnlyClaimable(box: Box, n: nat, now: int, i: nat)
    requires n <= |box.events| && i < |ClaimableAmong(box, n, now)|
    ensures Claimable(box, ClaimableAmong(box, n, now)[i].id, now)
  {
    if i < |ClaimableAmong(box, n - 1, now)| {
      OnlyClaimable(box, n - 1, now, i);
    }
  }

  lemma BatchIsClaimable(box: Box, limit: int, now: int, id: nat)
    requires Has(Batch(box, limit, now), id)
    ensures Claimable(box, id, now)
  {
    var batch := Batch(box, limit, now);
    var i: nat :| i < |batch| && batch[i].id == id;
    OnlyClaimable(box, |box.events|, now, i);
  }

  /** Strictly increasing positions of exactly these events in the outbox. */
  ghost predicate Located(box: Box, n: nat, batch: seq<Event>, at: seq<nat>)
    requires n <= |box.events|
  {
    && |at| == |batch|
    && (forall k :: 0 <= k < |at| ==> at[k] < n && box.events[at[k]] == batch[k])
    && forall k, l :: 0 <= k < l < |at| ==> at[k] < at[l]
  }

  lemma {:induction false} ClaimablePositions(box: Box, n: nat, now: int) returns (at: seq<nat>)
    requires n <= |box.events|
    ensures Located(box, n, ClaimableAmong(box, n, now), at)
    ensures forall j :: 0 <= j < n ==> (j in at <==> Due(box, j, now))
  {
    at := [];
    if n > 0 {
      at := ClaimablePositions(box, n - 1, now);
      if Due(box, n - 1, now) {
        at := at + [n - 1];
      }
    }
  }

  /** The first due events in outbox order, at these positions: each ID once, no more than a positive limit,
      and one is left out only if there is such a limit, the batch has reached it and lies wholly before the
      event. */
  ghost predicate FirstDue(box: Box, limit: int, now: int, batch: seq<Event>, at: seq<nat>) {
    && (limit > 0 ==> |batch| <= limit)
    && (forall k, l :: 0 <= k < l < |batch| ==> batch[k].id != batch[l].id)
    && Located(box, |box.events|, batch, at)
    && (forall k :: 0 <= k < |at| ==> at[k] < |box.events| && Due(box, at[k], now))
    && forall j :: 0 <= j < |box.events| && Due(box, j, now) && j !in at ==>
         limit > 0 && |batch| == limit && forall k :: 0 <= k < |at| ==> at[k] < j
  }

  /** A batch is the first due events, up to a limit if that is positive. */
  lemma BatchIsFirst(box: Box, limit: int, now: int) returns (at: seq<nat>)
    ensures FirstDue(box, limit, now, Batch(box, limit, now), at)
    ensures limit > 0 ==> |Batch(box, limit, now)| <= limit
  {
    hide ClaimableAmong, Due;
    var all := ClaimablePositions(box, |box.events|, now);
    ShortEnough(box, |box.events|, now);
    at := all[..|Batch(box, limit, now)|];
    forall k | 0 <= k < |at|
      ensures at[k] < |box.events| && Due(box, at[k], now)
    {
      assert at[k] in all;
    }
    forall j | 0 <= j < |box.events| && Due(box, j, now) && j !in at
      ensures limit > 0 && |at| == limit && forall k :: 0 <= k < |at| ==> at[k] < j
    {
      LeftOut(all, |at|, j);
    }
    NoneTwice(box, now, Batch(box, limit, now), at);
  }

  lemma NoneTwice(box: Box, now: int, batch: seq<Event>, at: seq<nat>)
    requires Located(box, |box.events|, batch, at) && forall k :: 0 <= k < |at| ==> Due(box, at[k], now)
    ensures forall k, l :: 0 <= k < l < |batch| ==> batch[k].id != batch[l].id
  {
    forall k, l | 0 <= k < l < |batch|
      ensures batch[k].id != batch[l].id
    {
      assert Due(box, at[l], now) && at[k] < at[l];
    }
  }

  /** Every event handed out is under a lease of 30 seconds, and no other lease changes. */
  ghost predicate Leased(before: map<nat, int>, after: map<nat, int>, batch: seq<Event>, now: int) {
    forall id ::
      if Has(batch, id) then id in after && after[id] == now + 30
      else (id in after <==> id in before) && (id in before ==> after[id] == before[id])
  }

  lemma BatchIsLeased(box: Box, limit: int, now: int)
    ensures Leased(box.claimed, Claim(box, limit, now).0.claimed, Batch(box, limit, now), now)
  {
    forall id {
      LeaseCovers(box.claimed, Batch(box, limit, now), now + LEASE_SECONDS, id);
    }
  }

  /** What an increasing sequence has beyond its first `m` elements is greater than those. */
  lemma LeftOut(all: seq<nat>, m: nat, j: nat)
    requires m <= |all| && j in all && j !in all[..m]
    requires forall k, l :: 0 <= k < l < |all| ==> all[k] < all[l]
    ensures m < |all| && forall k :: 0 <= k < m ==> all[k] < j
  {
    assert all == all[..m] + all[m..];
    var l :| 0 <= l < |all[m..]| && all[m..][l] == j;
    assert all[m + l] == j;
  }

  lemma {:induction false} ShortEnough(box: Box, n: nat, now: int)
    requires n <= |box.events|
    ensures |ClaimableAmong(box, n, now)| <= n
  {
    if n > 0 {
      ShortEnough(box, n - 1, now);
    }
  }

  /** The scan may stop as soon as the batch is full. */
  lemma FullBatch(box: Box, n: nat, limit: int, now: int)
    requires n <= |box.events| && |ClaimableAmong(box, n, now)| == Most(box, limit)
    ensures Batch(box, limit, now) == ClaimableAmong(box, n, now)
  {
    Prefix(box, n, now);
  }

  lemma Start(box: Box, now: int, until: int)
    ensures ClaimableAmong(box, 0, now) == [] && Lease(box.claimed, [], until) == box.claimed
  {
  }

  lemma Scan(box: Box, n: nat, now: int)
    requires n < |box.events|
    ensures ClaimableAmong(box, n + 1, now)
         == ClaimableAmong(box, n, now) + if Due(box, n, now) then [box.events[n]] else []
  {
  }

  /** The scan has handed out an ID exactly if it was claimable and has occurred. */
  lemma {:induction false} HandedOut(box: Box, n: nat, now: int, id: nat)
    requires n <= |box.events|
    ensures Has(ClaimableAmong(box, n, now), id) <==>
      Claimable(box, id, now) && exists i :: 0 <= i < n && box.events[i].id == id
  {
    if n > 0 {
      HandedOut(box, n - 1, now, id);
      var before, batch := ClaimableAmong(box, n - 1, now), ClaimableAmong(box, n, now);
      assert forall k :: 0 <= k < |before| ==> batch[k] == before[k];
      assert |batch| > |before| ==> batch[|before|] == box.events[n - 1];
    }
  }

  /** What the scan sees at its next event, with the leases it has made so far. */
  lemma SkipsExactly(box: Box, n: nat, now: int, claimed: map<nat, int>)
    requires n < |box.events| && claimed == Lease(box.claimed, ClaimableAmong(box, n, now), now + LEASE_SECONDS)
    ensures var id := box.events[n].id;
      Due(box, n, now) <==> !(id in box.published || (id in claimed && claimed[id] > now))
  {
    var id := box.events[n].id;
    LeaseCovers(box.claimed, ClaimableAmong(box, n, now), now + LEASE_SECONDS, id);
    HandedOut(box, n, now, id);
  }

  lemma WholeScan(box: Box, limit: int, now: int)
    requires |ClaimableAmong(box, |box.events|, now)| <= Most(box, limit)
    ensures Batch(box, limit, now) == ClaimableAmong(box, |box.events|, now)
  {
  }

  lemma LeaseOne(claimed: map<nat, int>, batch: seq<Event>, e: Event, until: int)
    ensures Lease(claimed, batch + [e], until) == Lease(claimed, batch, until)[e.id := until]
  {
    assert (batch + [e])[..|batch|] == batch;
  }

  // ------------------------------------------------------------ traces

  datatype Op = Append(event: Event, at: int) | ClaimOp(limit: int, at: int) | MarkOp(id: nat, at: int)

  function Do(box: Box, op: Op): (r: Box) {
    match op
    case Append(e, _) => box.(events := box.events + [e])
    case ClaimOp(limit, at) => Claim(box, limit, at).0
    case MarkOp(id, at) => Mark(box, id, at)
  }

  function DoAll(box: Box, ops: seq<Op>): (r: Box) {
    if |ops| == 0 then box else Do(DoAll(box, ops[..|ops| - 1]), ops[|ops| - 1])
  }

  /** The event is published, or under a lease that runs until `until`. */
  ghost predicate Guarded(box: Box, id: nat, until: int) {
    id in box.published || (id in box.claimed && box.claimed[id] == until)
  }

  lemma GuardStep(box: Box, op: Op, id: nat, until: int)
    requires Guarded(box, id, until) && op.at < until
    ensures Guarded(Do(box, op), id, until)
    ensures id !in box.published && op != MarkOp(id, op.at) ==> id !in Do(box, op).published
  {
    if op.ClaimOp? {
      var batch := Batch(box, op.limit, op.at);
      if Has(batch, id) {
        BatchIsClaimable(box, op.limit, op.at, id);
        assert false;
      }
      LeaseCovers(box.claimed, batch, op.at + LEASE_SECONDS, id);
    }
  }

  lemma {:induction false} GuardRun(box: Box, ops: seq<Op>, id: nat, until: int)
    requires Guarded(box, id, until) && forall i :: 0 <= i < |ops| ==> ops[i].at < until
    ensures Guarded(DoAll(box, ops), id, until)
    ensures id !in box.published && (forall i :: 0 <= i < |ops| ==> ops[i] != MarkOp(id, ops[i].at)) ==>
      id !in DoAll(box, ops).published
  {
    if |ops| > 0 {
      GuardRun(box, ops[..|ops| - 1], id, until);
      GuardStep(DoAll(box, ops[..|ops| - 1]), ops[|ops| - 1], id, until);
    }
  }

  /** Two claims less than 30 seconds apart never hand out the same event, whatever happens between. */
  lemma ClaimsAreDisjoint(box: Box, limit1: int, t1: int, between: seq<Op>, limit2: int, t2: int, id: nat)
    requires t2 < t1 + 30 && forall i :: 0 <= i < |between| ==> between[i].at <= t2
    requires Has(Claim(box, limit1, t1).1, id)
    ensures !Has(Claim(DoAll(Claim(box, limit1, t1).0, between), limit2, t2).1, id)
  {
    var first := Claim(box, limit1, t1);
    LeaseCovers(box.claimed, first.1, t1 + LEASE_SECONDS, id);
    GuardRun(first.0, between, id, t1 + LEASE_SECONDS);
    var box2 := DoAll(first.0, between);
    if Has(Batch(box2, limit2, t2), id) {
      BatchIsClaimable(box2, limit2, t2, id);
    }
  }

  /** A claimed event that nobody marks is claimable again exactly when its lease ends. */
  lemma LeaseEnds(box: Box, limit: int, t1: int, between: seq<Op>, t2: int, id: nat)
    requires Has(Claim(box, limit, t1).1, id)
    requires forall i :: 0 <= i < |between| ==> between[i].at < t1 + 30 && between[i] != MarkOp(id, between[i].at)
    ensures Claimable(DoAll(Claim(box, limit, t1).0, between), id, t2) <==> t2 >= t1 + 30
  {
    BatchIsClaimable(box, limit, t1, id);
    var first := Claim(box, limit, t1);
    LeaseCovers(box.claimed, first.1, t1 + LEASE_SECONDS, id);
    GuardRun(first.0, between, id, t1 + LEASE_SECONDS);
  }

  /** A published event is never handed out again. */
  lemma {:induction false} PublishedStays(box: Box, ops: seq<Op>, id: nat, limit: int, now: int)
    requires id in box.published
    ensures id in DoAll(box, ops).published && !Has(Claim(DoAll(box, ops), limit, now).1, id)
  {
    if |ops| > 0 {
      PublishedStays(box, ops[..|ops| - 1], id, limit, now);
    }
    if Has(Batch(DoAll(box, ops), limit, now), id) {
      BatchIsClaimable(DoAll(box, ops), limit, now, id);
    }
  }

  // ------------------------------------------------------------ what a run hands out

  const EMPTY: Box := Box([], map[], map[])

  ghost predicate Appended(ops: seq<Op>, id: nat) {
    exists i :: 0 <= i < |ops| && ops[i].Append? && ops[i].event.id == id
  }

  ghost predicate Marked(ops: seq<Op>, id: nat) {
    exists i :: 0 <= i < |ops| && ops[i].MarkOp? && ops[i].id == id
  }

  /** The i-th operation is a claim that hands out this event. */
  ghost predicate HandsOut(ops: seq<Op>, i: nat, id: nat)
    requires i < |ops|
  {
    ops[i].ClaimOp? && Has(Claim(DoAll(EMPTY, ops[..i]), ops[i].limit, ops[i].at).1, id)
  }

  /** What the outbox knows of an event: it is published if it was marked, and otherwise its lease, if it has
      one, is that of the last claim that handed it out. */
  ghost predicate Remembers(ops: seq<Op>, id: nat) {
    var box := DoAll(EMPTY, ops);
    && (Appended(ops, id) <==> Has(box.events, id))
    && (Marked(ops, id) <==> id in box.published)
    && (!Marked(ops, id) ==>
          && (id in box.claimed ==> exists i :: 0 <= i < |ops| && HandsOut(ops, i, id) && ops[i].at + 30 == box.claimed[id])
          && forall i :: 0 <= i < |ops| && HandsOut(ops, i, id) ==> id in box.claimed && ops[i].at + 30 <= box.claimed[id])
  }

  lemma {:induction false} OutboxRemembers(ops: seq<Op>, id: nat)
    ensures Remembers(ops, id)
  {
    if |ops| > 0 {
      var front := ops[..|ops| - 1];
      OutboxRemembers(front, id);
      RemembersNext(front, ops[|ops| - 1], id);
      assert front + [ops[|ops| - 1]] == ops;
    }
  }

  lemma SameHandsOut(ops: seq<Op>, op: Op, id: nat)
    ensures forall i :: 0 <= i < |ops| ==> (ops + [op])[i] == ops[i] && (HandsOut(ops + [op], i, id) <==> HandsOut(ops, i, id))
    ensures HandsOut(ops + [op], |ops|, id) <==> op.ClaimOp? && Has(Claim(DoAll(EMPTY, ops), op.limit, op.at).1, id)
    ensures DoAll(EMPTY, ops + [op]) == Do(DoAll(EMPTY, ops), op)
  {
    hide Claim, Has;
    assert (ops + [op])[..|ops|] == ops;
    forall i | 0 <= i < |ops|
      ensures HandsOut(ops + [op], i, id) <==> HandsOut(ops, i, id)
    {
      assert (ops + [op])[..i] == ops[..i];
    }
  }

  lemma MoreOps(ops: seq<Op>, op: Op, id: nat)
    ensures Appended(ops + [op], id) <==> Appended(ops, id) || (op.Append? && op.event.id == id)
    ensures Marked(ops + [op], id) <==> Marked(ops, id) || (op.MarkOp? && op.id == id)
  {
    var more := ops + [op];
    assert forall i :: 0 <= i < |ops| ==> more[i] == ops[i];
    assert more[|ops|] == op;
  }

  lemma MoreEvents(events: seq<Event>, e: Event, id: nat)
    ensures Has(events + [e], id) <==> Has(events, id) || e.id == id
  {
    var more := events + [e];
    assert forall i :: 0 <= i < |events| ==> more[i] == events[i];
    assert more[|events|] == e;
  }

  lemma RemembersNext(ops: seq<Op>, op: Op, id: nat)
    requires Remembers(ops, id)
    ensures Remembers(ops + [op], id)
  {
    hide DoAll, HandsOut, Appended, Marked, Has, Lease, Batch, Claimable;
    var box := DoAll(EMPTY, ops);
    SameHandsOut(ops, op, id);
    MoreOps(ops, op, id);
    match op
    case Append(e, at) => MoreEvents(box.events, e, id);
    case ClaimOp(limit, at) =>
      LeaseCovers(box.claimed, Batch(box, limit, at), at + LEASE_SECONDS, id);
      if Has(Batch(box, limit, at), id) {
        BatchIsClaimable(box, limit, at, id);
        ClaimableIs(box, id, at);
      }
    case MarkOp(_, _) =>
  }

  lemma ClaimableIs(box: Box, id: nat, now: int)
    ensures Claimable(box, id, now) <==> id !in box.published && (id in box.claimed ==> box.claimed[id] <= now)
  {
  }

  /** After any operations on a new outbox, a claim without a limit hands out exactly the events that were
      appended, were never marked, and were last handed out at least 30 seconds ago. */
  lemma HandedOutExactlyWhen(ops: seq<Op>, limit: int, now: int, id: nat)
    requires limit <= 0
    ensures Has(Claim(DoAll(EMPTY, ops), limit, now).1, id) <==>
      && Appended(ops, id) && !Marked(ops, id)
      && forall i :: 0 <= i < |ops| && HandsOut(ops, i, id) ==> ops[i].at + 30 <= now
  {
    hide DoAll, HandsOut, Appended, Marked, Claimable, ClaimableAmong;
    var box := DoAll(EMPTY, ops);
    OutboxRemembers(ops, id);
    ClaimableIs(box, id, now);
    ShortEnough(box, |box.events|, now);
    HandedOut(box, |box.events|, now, id);
  }
}
