/**
 * The outbox service and its worker as they run when nobody interferes: recover, read, claim one by one,
 * process, mark.
 */
module OutboxServices {
  import opened Common
  import opened Outbox

  // ------------------------------------------------------------------ the candidates

  predicate IsEligible(event: Event, now: int) {
    IsClaimable(event, now) && event.attempts < MAX_ATTEMPTS
  }

  /** Available earlier first, and the older event first among equals. */
  predicate Before(events: seq<Event>, a: EventId, b: EventId)
    requires a < |events| && b < |events|
  {
    events[a].availableAt < events[b].availableAt || (events[a].availableAt == events[b].availableAt && a < b)
  }

  ghost predicate Known(events: seq<Event>, ids: seq<EventId>) {
    forall i :: 0 <= i < |ids| ==> ids[i] < |events|
  }

  ghost predicate Ranked(events: seq<Event>, ids: seq<EventId>) {
    Known(events, ids) && forall i, k :: 0 <= i < k < |ids| ==> Before(events, ids[i], ids[k])
  }

  /** Puts a younger event behind every event that is available no later. */
  function Insert(events: seq<Event>, ids: seq<EventId>, id: EventId): (ranked: seq<EventId>)
    requires Known(events, ids) && id < |events|
    ensures Known(events, ranked)
  {
    if ids == [] then [id]
    else if events[ids[|ids| - 1]].availableAt <= events[id].availableAt then ids + [id]
    else Insert(events, ids[..|ids| - 1], id) + [ids[|ids| - 1]]
  }

  function RankEligible(events: seq<Event>, n: nat, now: int): (ranked: seq<EventId>)
    requires n <= |events|
    ensures Known(events, ranked)
  {
    if n == 0 then []
    else
      var earlier := RankEligible(events, n - 1, now);
      if IsEligible(events[n - 1], now) then Insert(events, earlier, n - 1) else earlier
  }

  function BatchSize(limit: int): (size: nat)
    ensures 1 <= size <= 100
    ensures 1 <= limit <= 100 ==> size == limit
  {
    Max(1, Min(100, limit))
  }

  /** The events a batch reads: the best-ranked eligible ones, up to its size. */
  function Batch(events: seq<Event>, now: int, limit: int): (ids: seq<EventId>)
    ensures Known(events, ids)
  {
    var ranked := RankEligible(events, |events|, now);
    if |ranked| <= BatchSize(limit) then ranked else ranked[..BatchSize(limit)]
  }

  lemma {:induction false} InsertRanks(events: seq<Event>, ids: seq<EventId>, id: EventId)
    requires Ranked(events, ids) && id < |events|
    requires forall i :: 0 <= i < |ids| ==> ids[i] < id
    ensures Ranked(events, Insert(events, ids, id))
    ensures forall x :: x in Insert(events, ids, id) <==> x in ids || x == id
  {
    if ids != [] {
      var front, last := ids[..|ids| - 1], ids[|ids| - 1];
      assert ids == front + [last];
      if events[id].availableAt < events[last].availableAt {
        InsertRanks(events, front, id);
        var inserted := Insert(events, front, id);
        forall i | 0 <= i < |inserted| ensures Before(events, inserted[i], last) {
          assert inserted[i] in front || inserted[i] == id;
        }
      }
    }
  }

  lemma {:induction false} RankingIsRight(events: seq<Event>, n: nat, now: int)
    requires n <= |events|
    ensures var ranked := RankEligible(events, n, now);
      && Ranked(events, ranked)
      && (forall id: EventId :: id in ranked <==> id < n && IsEligible(events[id], now))
  {
    if n > 0 {
      RankingIsRight(events, n - 1, now);
      var earlier := RankEligible(events, n - 1, now);
      forall i | 0 <= i < |earlier| ensures earlier[i] < n - 1 {
        assert earlier[i] in earlier;
      }
      InsertRanks(events, earlier, n - 1);
    }
  }

  /**
   * A batch reads eligible events only, in order, none twice, and leaves out an eligible event only for
   * better-ranked ones.
   */
  lemma BatchIsRanked(events: seq<Event>, now: int, limit: int)
    ensures var ids := Batch(events, now, limit);
      && |ids| <= BatchSize(limit)
      && Ranked(events, ids)
      && (forall i :: 0 <= i < |ids| ==> IsEligible(events[ids[i]], now))
      && (forall id: EventId :: id < |events| && IsEligible(events[id], now) && id !in ids ==>
            |ids| == BatchSize(limit) && forall i :: 0 <= i < |ids| ==> Before(events, ids[i], id))
  {
    RankingIsRight(events, |events|, now);
    var ranked, ids := RankEligible(events, |events|, now), Batch(events, now, limit);
    assert forall k :: 0 <= k < |ids| ==> ranked[k] == ids[k] && ids[k] in ranked && ids[k] in ids;
    forall id: EventId | id < |events| && IsEligible(events[id], now) && id !in ids
      ensures |ids| == BatchSize(limit) && forall i :: 0 <= i < |ids| ==> Before(events, ids[i], id)
    {
      assert id in ranked;
      var k :| 0 <= k < |ranked| && ranked[k] == id;
    }
  }

  ghost predicate NoRepeats(ids: seq<EventId>) {
    forall i, k :: 0 <= i < k < |ids| ==> ids[i] != ids[k]
  }

  lemma BatchIsFresh(events: seq<Event>, now: int, limit: int)
    ensures NoRepeats(Batch(events, now, limit))
    ensures forall i :: 0 <= i < |Batch(events, now, limit)| ==> IsEligible(events[Batch(events, now, limit)[i]], now)
  {
    BatchIsRanked(events, now, limit);
  }

  lemma NotBefore(ids: seq<EventId>, n: nat)
    requires NoRepeats(ids) && n < |ids|
    ensures ids[n] !in ids[..n]
    ensures ids[..n + 1] == ids[..n] + [ids[n]]
  {
  }

  // ------------------------------------------------------------------ the service

  /** The events after some of them were claimed at one time. */
  function LockAll(events: seq<Event>, ids: seq<EventId>, now: int): (after: seq<Event>)
    ensures |after| == |events|
    ensures forall i {:trigger after[i]} :: 0 <= i < |events| ==>
      after[i] == if i in ids then Lock(events[i], now) else events[i]
  {
    seq(|events|, i requires 0 <= i < |events| => if i in ids then Lock(events[i], now) else events[i])
  }

  /** The events after a batch was processed: each of its events is marked by how its processing went. */
  function Mark(event: Event, worked: bool, now: int): Event {
    if worked then event.(status := Processed, lockedAt := None)
    else event.(status := Failed, lockedAt := None, availableAt := now + RetrySeconds(event.attempts) * 1000)
  }

  function MarkAll(events: seq<Event>, ids: seq<EventId>, works: EventId -> bool, now: int): (after: seq<Event>)
    ensures |after| == |events|
    ensures forall i {:trigger after[i]} :: 0 <= i < |events| ==>
      after[i] == if i in ids then Mark(events[i], works(i), now) else events[i]
  {
    seq(|events|, i requires 0 <= i < |events| => if i in ids then Mark(events[i], works(i), now) else events[i])
  }

  lemma MarkOneMore(events: seq<Event>, ids: seq<EventId>, n: nat, works: EventId -> bool, now: int)
    requires NoRepeats(ids) && n < |ids| && ids[n] < |events|
    ensures MarkAll(events, ids[..n], works, now)[ids[n]] == events[ids[n]]
    ensures MarkAll(events, ids[..n + 1], works, now)
         == MarkAll(events, ids[..n], works, now)[ids[n] := Mark(events[ids[n]], works(ids[n]), now)]
  {
    NotBefore(ids, n);
    MarkGrows(events, ids[..n], ids[n], works, now);
  }

  lemma MarkGrows(events: seq<Event>, ids: seq<EventId>, id: EventId, works: EventId -> bool, now: int)
    requires id < |events| && id !in ids
    ensures MarkAll(events, ids + [id], works, now)
         == MarkAll(events, ids, works, now)[id := Mark(events[id], works(id), now)]
  {
  }

  lemma LockOneMore(events: seq<Event>, ids: seq<EventId>, id: EventId, now: int)
    requires id < |events| && id !in ids
    ensures LockAll(events, ids + [id], now) == LockAll(events, ids, now)[id := Lock(events[id], now)]
  {
  }

  class OutboxService {
    var events: seq<Event>

    constructor ()
      ensures events == []
    {
      events := [];
    }

    /** Adds an event, or finds the one that has its key. */
    method EnqueueOutboxEvent(key: string, availableAt: int) returns (id: EventId)
      modifies this
      ensures id < |events| && events[id].key == key
      ensures events == if KeyTaken(old(events), key) then old(events)
                        else old(events) + [Event(key, Pending, 0, availableAt, None)]
    {
      id := 0;
      while id < |events|
        invariant id <= |events|
        invariant forall i :: 0 <= i < id ==> events[i].key != key
      {
        if events[id].key == key {
          return;
        }
        id := id + 1;
      }
      events := events + [Event(key, Pending, 0, availableAt, None)];
    }

    /** One guarded update: the claim goes through if the event is as the batch read it. */
    method TryClaimOne(id: EventId, attempts: nat, now: int) returns (won: bool)
      requires id < |events|
      modifies this
      ensures won <==> IsClaimable(old(events)[id], now) && old(events)[id].attempts == attempts
      ensures events == if won then old(events)[id := Lock(old(events)[id], now)] else old(events)
    {
      var event := events[id];
      if !(event.status.Pending? || event.status.Failed?) || now < event.availableAt || event.attempts != attempts {
        return false;
      }
      event := event.(status := Processing, attempts := event.attempts + 1);
      events := events[id := event.(lockedAt := Some(now))];
      return true;
    }

    method RecoverStaleLocks(now: int)
      modifies this
      ensures events == Recover(old(events), now)
    {
      for i := 0 to |events|
        invariant |events| == |old(events)|
        invariant forall k :: 0 <= k < i ==> events[k] == RecoverOne(old(events)[k], now)
        invariant forall k :: i <= k < |events| ==> events[k] == old(events)[k]
      {
        var event := events[i];
        if event.status.Processing? && event.lockedAt.Some? && event.lockedAt.value < now - STALE_LOCK_MS {
          events := events[i := event.(status := Failed, lockedAt := None, availableAt := now)];
        }
      }
    }

    /** Undisturbed, a batch claims every event it read, once each, in rank order. */
    method ClaimBatch(now: int, limit: int) returns (claimed: seq<EventId>)
      modifies this
      ensures claimed == Batch(Recover(old(events), now), now, limit)
      ensures events == LockAll(Recover(old(events), now), claimed, now)
    {
      RecoverStaleLocks(now);
      var read := events;
      var candidates := Batch(read, now, limit);
      BatchIsRanked(read, now, limit);
      claimed := [];
      for i := 0 to |candidates|
        invariant claimed == candidates[..i]
        invariant |events| == |read|
        invariant forall k :: 0 <= k < |read| ==>
          events[k] == if k in candidates[..i] then Lock(read[k], now) else read[k]
      {
        var id := candidates[i];
        assert id !in candidates[..i];
        var won := TryClaimOne(id, read[id].attempts, now);
        assert candidates[..i + 1] == candidates[..i] + [id];
        if won {
          claimed := claimed + [id];
        }
      }
      assert candidates[..|candidates|] == candidates;
    }

    method MarkEventProcessed(id: EventId)
      requires id < |events|
      modifies this
      ensures events == old(events)[id := old(events)[id].(status := Processed, lockedAt := None)]
    {
      events := events[id := events[id].(status := Processed, lockedAt := None)];
    }

    method MarkEventFailed(id: EventId, now: int)
      requires id < |events|
      modifies this
      ensures events == old(events)[id := old(events)[id].(
        status := Failed, lockedAt := None, availableAt := now + RetrySeconds(old(events)[id].attempts) * 1000)]
    {
      var delay := RetrySeconds(events[id].attempts);
      events := events[id := events[id].(status := Failed, lockedAt := None, availableAt := now + delay * 1000)];
    }
  }

  datatype BatchResult = BatchResult(claimed: nat, processed: nat, failed: nat, skipped: bool)

  class NotificationWorkerService {
    const outbox: OutboxService
    var running: bool

    constructor (outbox: OutboxService)
      ensures this.outbox == outbox && !running
    {
      this.outbox := outbox;
      running := false;
    }

    /** Claims a batch, processes each event and marks it; a worker that is already running does nothing. */
    method ProcessBatch(now: int, limit: int, works: EventId -> bool) returns (result: BatchResult)
      modifies this, outbox
      ensures result.skipped <==> old(running)
      ensures result.skipped ==> running && outbox.events == old(outbox.events)
      ensures !result.skipped ==>
        var read := Recover(old(outbox.events), now);
        var batch := Batch(read, now, limit);
        && !running
        && result.claimed == |batch| == result.processed + result.failed
        && outbox.events == MarkAll(LockAll(read, batch, now), batch, works, now)
    {
      if running {
        return BatchResult(0, 0, 0, true);
      }
      running := true;
      ghost var read := Recover(outbox.events, now);
      var batch := outbox.ClaimBatch(now, limit);
      BatchIsFresh(read, now, limit);
      ghost var locked := outbox.events;
      var processed, failed := 0, 0;
      for i := 0 to |batch|
        invariant running && processed + failed == i && processed >= 0 && failed >= 0
        invariant outbox.events == MarkAll(locked, batch[..i], works, now)
      {
        var id := batch[i];
        MarkOneMore(locked, batch, i, works, now);
        if works(id) {
          outbox.MarkEventProcessed(id);
          processed := processed + 1;
        } else {
          outbox.MarkEventFailed(id, now);
          failed := failed + 1;
        }
      }
      assert batch[..|batch|] == batch;
      running := false;
      return BatchResult(|batch|, processed, failed, false);
    }
  }

  // ------------------------------------------------------- the batch as interleaved steps

  /** A batch that nobody interrupts is a run of the interleaved machine: recover, pick all, claim all. */
  function Picks(worker: WorkerId, ids: seq<EventId>, now: int): seq<Step> {
    seq(|ids|, i requires 0 <= i < |ids| => Pick(worker, ids[i], now))
  }

  function Claims(first: nat, n: nat): seq<Step> {
    seq(n, i requires 0 <= i < n => TryClaim(first + i))
  }

  lemma {:induction false} PicksRead(outbox: Outbox, worker: WorkerId, ids: seq<EventId>, now: int)
    requires forall i :: 0 <= i < |ids| ==> ids[i] < |outbox.events| && IsEligible(outbox.events[ids[i]], now)
    ensures var after := Interleave(outbox, Picks(worker, ids, now));
      && after.events == outbox.events && after.claims == outbox.claims
      && |after.candidates| == |outbox.candidates| + |ids|
      && (forall i :: 0 <= i < |ids| ==>
            after.candidates[|outbox.candidates| + i] == Candidate(worker, ids[i], outbox.events[ids[i]].attempts, now))
  {
    if ids != [] {
      var front := ids[..|ids| - 1];
      PicksRead(outbox, worker, front, now);
      assert Picks(worker, ids, now)[..|ids| - 1] == Picks(worker, front, now);
    }
  }

  ghost predicate ReadAt(outbox: Outbox, worker: WorkerId, id: EventId, k: nat, now: int) {
    && id < |outbox.events| && IsEligible(outbox.events[id], now)
    && k < |outbox.candidates|
    && outbox.candidates[k] == Candidate(worker, id, outbox.events[id].attempts, now)
  }

  ghost predicate ReadBy(outbox: Outbox, worker: WorkerId, ids: seq<EventId>, first: nat, now: int) {
    NoRepeats(ids) && forall i :: 0 <= i < |ids| ==> ReadAt(outbox, worker, ids[i], first + i, now)
  }

  lemma ClaimWins(outbox: Outbox, k: nat, worker: WorkerId, id: EventId, event: Event, now: int)
    requires k < |outbox.candidates| && outbox.candidates[k] == Candidate(worker, id, event.attempts, now)
    requires id < |outbox.events| && outbox.events[id] == event && IsEligible(event, now)
    ensures var after := Take(outbox, TryClaim(k));
      after.events == outbox.events[id := Lock(event, now)] && after.candidates == outbox.candidates
  {
  }

  lemma ClaimsOneMore(outbox: Outbox, before: Outbox, worker: WorkerId, ids: seq<EventId>, first: nat, n: nat, now: int)
    requires n < |ids| && NoRepeats(ids) && ReadAt(outbox, worker, ids[n], first + n, now)
    requires before.events == LockAll(outbox.events, ids[..n], now) && before.candidates == outbox.candidates
    ensures var after := Take(before, TryClaim(first + n));
      after.events == LockAll(outbox.events, ids[..n + 1], now) && after.candidates == outbox.candidates
  {
    NotBefore(ids, n);
    LockOneMore(outbox.events, ids[..n], ids[n], now);
    ClaimWins(before, first + n, worker, ids[n], outbox.events[ids[n]], now);
  }

  lemma {:induction false} ClaimsLock(outbox: Outbox, worker: WorkerId, ids: seq<EventId>, first: nat, n: nat, now: int)
    requires n <= |ids| && ReadBy(outbox, worker, ids, first, now)
    ensures var after := Interleave(outbox, Claims(first, n));
      && after.events == LockAll(outbox.events, ids[..n], now)
      && after.candidates == outbox.candidates
  {
    if n == 0 {
      assert LockAll(outbox.events, ids[..0], now) == outbox.events;
    } else {
      ClaimsLock(outbox, worker, ids, first, n - 1, now);
      ClaimsOneMore(outbox, Interleave(outbox, Claims(first, n - 1)), worker, ids, first, n - 1, now);
      ClaimsFront(outbox, first, n);
    }
  }

  lemma ClaimsFront(outbox: Outbox, first: nat, n: nat)
    requires n > 0
    ensures Interleave(outbox, Claims(first, n)) ==
            Take(Interleave(outbox, Claims(first, n - 1)), TryClaim(first + n - 1))
  {
    assert Claims(first, n)[..n - 1] == Claims(first, n - 1);
  }

  lemma PickedThenClaimed(outbox: Outbox, worker: WorkerId, ids: seq<EventId>, now: int)
    requires Ranked(outbox.events, ids)
    requires forall i :: 0 <= i < |ids| ==> IsEligible(outbox.events[ids[i]], now)
    ensures Interleave(Interleave(outbox, Picks(worker, ids, now)), Claims(|outbox.candidates|, |ids|)).events
         == LockAll(outbox.events, ids, now)
  {
    PicksRead(outbox, worker, ids, now);
    var picked := Interleave(outbox, Picks(worker, ids, now));
    assert ReadBy(picked, worker, ids, |outbox.candidates|, now);
    ClaimsLock(picked, worker, ids, |outbox.candidates|, |ids|, now);
    assert ids[..|ids|] == ids;
  }

  /** So the service's batch and the interleaved machine agree on what a batch does to the events. */
  lemma BatchIsARun(outbox: Outbox, worker: WorkerId, now: int, limit: int)
    ensures var read := Recover(outbox.events, now);
      var ids := Batch(read, now, limit);
      var steps := [RecoverStale(now)] + Picks(worker, ids, now) + Claims(|outbox.candidates|, |ids|);
      Interleave(outbox, steps).events == LockAll(read, ids, now)
  {
    var recovered := Take(outbox, RecoverStale(now));
    var ids := Batch(recovered.events, now, limit);
    var picks, claims := Picks(worker, ids, now), Claims(|outbox.candidates|, |ids|);
    BatchIsRanked(recovered.events, now, limit);
    PickedThenClaimed(recovered, worker, ids, now);
    RecoverFirst(outbox, now, picks, claims);
  }

  lemma RecoverFirst(outbox: Outbox, now: int, picks: seq<Step>, claims: seq<Step>)
    ensures Interleave(outbox, [RecoverStale(now)] + picks + claims)
         == Interleave(Interleave(Take(outbox, RecoverStale(now)), picks), claims)
  {
    InterleaveSplit(outbox, [RecoverStale(now)] + picks, claims);
    InterleaveSplit(outbox, [RecoverStale(now)], picks);
    assert [RecoverStale(now)][..0] == [];
  }
}
