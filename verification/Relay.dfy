/** One pass of the outbox relay (internal/messaging/relay.go): claim a batch, then publish and mark
    one event after the other, stopping at the first failure. Whether the broker accepts and whether
    the mark succeeds are up to the outside. */
module Relay {
  import opened OrderModel
  import Outbox
  import MemoryStore

  /** Marks a sequence of events, the i-th at time `clock(i)`. */
  ghost function MarkAll(box: Outbox.Box, events: seq<Event>, clock: nat -> int): (r: Outbox.Box) {
    if |events| == 0 then box
    else Outbox.Mark(MarkAll(box, events[..|events| - 1], clock), events[|events| - 1].id, clock(|events| - 1))
  }

  /** Exactly the marked events, and those published before, are published; a mark ends the lease. */
  lemma {:induction false} MarkAllMarks(box: Outbox.Box, events: seq<Event>, clock: nat -> int, id: nat)
    ensures var r := MarkAll(box, events, clock);
      && r.events == box.events
      && (id in r.published <==> id in box.published || Outbox.Has(events, id))
      && (id in r.claimed <==> id in box.claimed && !Outbox.Has(events, id))
      && (id in r.claimed ==> r.claimed[id] == box.claimed[id])
  {
    if |events| > 0 {
      var front := events[..|events| - 1];
      MarkAllMarks(box, front, clock, id);
      if Outbox.Has(front, id) {
        var i :| 0 <= i < |front| && front[i].id == id;
        assert events[i].id == id;
      }
      if Outbox.Has(events, id) && events[|events| - 1].id != id {
        var i :| 0 <= i < |events| && events[i].id == id;
        assert front[i].id == id;
      }
    }
  }

  lemma MarkNone(box: Outbox.Box, events: seq<Event>, clock: nat -> int)
    ensures MarkAll(box, events[..0], clock) == box
  {
  }

  lemma MarkNext(box: Outbox.Box, events: seq<Event>, clock: nat -> int, n: nat)
    requires n < |events|
    ensures MarkAll(box, events[..n + 1], clock) == Outbox.Mark(MarkAll(box, events[..n], clock), events[n].id, clock(n))
  {
    assert events[..n + 1][..n] == events[..n];
  }

  /** RunOnce. It fails exactly when some event of the batch is not accepted or cannot be marked; it
      marks exactly the events before the first such one, and nothing it marks was not accepted. A positive
      limit bounds the batch. */
  method RunOnce(store: MemoryStore.Memory, limit: int, now: int, clock: nat -> int, accepts: nat -> bool, marks: nat -> bool)
    returns (published: nat, failed: bool, accepted: seq<Event>)
    requires store.Valid()
    modifies store`published, store`claimed
    ensures store.Valid()
    ensures var (box, batch) := Outbox.Claim(old(store.Relayed()), limit, now);
      && (limit > 0 ==> |batch| <= limit)
      && published <= |batch|
      && store.Relayed() == MarkAll(box, batch[..published], clock)
      && batch[..published] <= accepted
      && (forall i :: 0 <= i < published ==> accepts(i) && marks(i))
      && failed == (published < |batch|)
      && (failed ==> !accepts(published) || !marks(published))
      && accepted == batch[..if failed && accepts(published) then published + 1 else published]
  {
    hide MarkAll, Outbox.Claim, Outbox.Mark, Outbox.FirstDue, Outbox.Leased;
    var events := store.PendingOutboxEvents(limit, now);
    ghost var box := store.Relayed();
    MarkNone(box, events, clock);
    published, failed, accepted := 0, false, [];
    while published < |events|
      invariant 0 <= published <= |events|
      invariant accepted == events[..published]
      invariant store.Relayed() == MarkAll(box, events[..published], clock)
      invariant forall i :: 0 <= i < published ==> accepts(i) && marks(i)
    {
      var event := events[published];
      if !accepts(published) {
        failed := true;
        return;
      }
      accepted := accepted + [event];
      if !marks(published) {
        failed := true;
        return;
      }
      MarkNext(box, events, clock, published);
      store.MarkOutboxPublished(event.id, clock(published));
      published := published + 1;
    }
  }

  /** After a pass that stopped early the events it did not mark are still leased, and come back to the
      next pass once the lease is over. */
  lemma UnmarkedEventsComeBack(before: Outbox.Box, limit: int, now: int, clock: nat -> int, n: nat, id: nat, later: int)
    requires var batch := Outbox.Claim(before, limit, now).1;
      n <= |batch| && Outbox.Has(batch, id) && !Outbox.Has(batch[..n], id)
    ensures var (box, batch) := Outbox.Claim(before, limit, now);
      Outbox.Claimable(MarkAll(box, batch[..n], clock), id, later) <==> later >= now + 30
  {
    var (box, batch) := Outbox.Claim(before, limit, now);
    Outbox.BatchIsClaimable(before, limit, now, id);
    Outbox.LeaseCovers(before.claimed, batch, now + Outbox.LEASE_SECONDS, id);
    MarkAllMarks(box, batch[..n], clock, id);
  }
}
