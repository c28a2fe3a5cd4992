/**
 * The notification outbox: any number of workers recover stale locks, read candidates, claim them by a
 * conditional write, process them and mark them, in any order, with every write a step of its own.
 */
module Outbox {
  import opened Common
  import opened Notifications

  type EventId = nat
  type WorkerId = nat

  const MAX_ATTEMPTS := 5
  const STALE_LOCK_MS := 300000

  datatype EventStatus = Pending | Processing | Processed | Failed

  datatype Event = Event(key: string, status: EventStatus, attempts: nat, availableAt: int, lockedAt: Option<int>)

  /** What a worker read about an event it means to claim, and the time its batch began. */
  datatype Candidate = Candidate(worker: WorkerId, event: EventId, attempts: nat, now: int)

  /** A claim that went through, with the number of the attempt it began. */
  datatype Claim = Claim(worker: WorkerId, event: EventId, number: nat)

  datatype Outbox = Outbox(
    events: seq<Event>,
    candidates: seq<Candidate>,
    claims: seq<Claim>,
    notifications: map<EventId, Notification>)

  datatype Step =
    | Enqueue(key: string, availableAt: int)
    | RecoverStale(now: int)
    | Pick(worker: WorkerId, event: EventId, now: int)
    | TryClaim(candidate: nat)
    | MarkProcessed(event: EventId)
    | MarkFailed(event: EventId, seenAttempts: nat, now: int)
    | Materialize(event: EventId, kind: EventKind, routed: seq<UserId>, preferences: Preferences)

  predicate KeyTaken(events: seq<Event>, key: string) {
    exists i :: 0 <= i < |events| && events[i].key == key
  }

  function RecoverOne(event: Event, now: int): Event {
    if event.status.Processing? && event.lockedAt.Some? && event.lockedAt.value < now - STALE_LOCK_MS
    then event.(status := Failed, lockedAt := None, availableAt := now)
    else event
  }

  function Recover(events: seq<Event>, now: int): (after: seq<Event>)
    ensures |after| == |events|
    ensures forall i :: 0 <= i < |events| ==> after[i] == RecoverOne(events[i], now)
  {
    seq(|events|, i requires 0 <= i < |events| => RecoverOne(events[i], now))
  }

  predicate IsClaimable(event: Event, now: int) {
    (event.status.Pending? || event.status.Failed?) && event.availableAt <= now
  }

  function Lock(event: Event, now: int): Event {
    event.(status := Processing, attempts := event.attempts + 1, lockedAt := Some(now))
  }

  function PowerOfTwo(n: nat): nat {
    if n == 0 then 1 else 2 * PowerOfTwo(n - 1)
  }

  /** Ten seconds, doubled for every attempt after the first, but at most five minutes. */
  function RetrySeconds(attempts: nat): int {
    Min(300, PowerOfTwo(if attempts == 0 then 0 else attempts - 1) * 10)
  }

  function Take(outbox: Outbox, step: Step): Outbox {
    match step
    case Enqueue(key, availableAt) =>
      if KeyTaken(outbox.events, key) then outbox
      else outbox.(events := outbox.events + [Event(key, Pending, 0, availableAt, None)])
    case RecoverStale(now) => outbox.(events := Recover(outbox.events, now))
    case Pick(worker, id, now) =>
      if id < |outbox.events| && IsClaimable(outbox.events[id], now) && outbox.events[id].attempts < MAX_ATTEMPTS
      then outbox.(candidates := outbox.candidates + [Candidate(worker, id, outbox.events[id].attempts, now)])
      else outbox
    case TryClaim(k) =>
      if k >= |outbox.candidates| || outbox.candidates[k].event >= |outbox.events| then outbox
      else
        var mine := outbox.candidates[k];
        var event := outbox.events[mine.event];
        if !IsClaimable(event, mine.now) || event.attempts != mine.attempts then outbox
        else
          outbox.(
            events := outbox.events[mine.event := Lock(event, mine.now)],
            claims := outbox.claims + [Claim(mine.worker, mine.event, event.attempts + 1)])
    case MarkProcessed(id) =>
      if id < |outbox.events|
      then outbox.(events := outbox.events[id := outbox.events[id].(status := Processed, lockedAt := None)])
      else outbox
    case MarkFailed(id, seenAttempts, now) =>
      if id < |outbox.events|
      then outbox.(events := outbox.events[id := outbox.events[id].(
        status := Failed, lockedAt := None, availableAt := now + RetrySeconds(seenAttempts) * 1000)])
      else outbox
    case Materialize(id, kind, routed, preferences) =>
      if id >= |outbox.events| || id in outbox.notifications then outbox
      else
        var rows := Rows(routed, preferences, kind);
        if rows.Err? then outbox
        else outbox.(notifications := outbox.notifications[id := Notification(kind, rows.value)])
  }

  function Interleave(start: Outbox, steps: seq<Step>): Outbox {
    if steps == [] then start
    else Take(Interleave(start, steps[..|steps| - 1]), steps[|steps| - 1])
  }

  const EMPTY: Outbox := Outbox([], [], [], map[])

  // ------------------------------------------------------------------- invariants

  /** The attempt numbers won on one event, oldest first. */
  function Numbers(claims: seq<Claim>, id: EventId): (numbers: seq<nat>) {
    if claims == [] then []
    else
      var last := claims[|claims| - 1];
      Numbers(claims[..|claims| - 1], id) + if last.event == id then [last.number] else []
  }

  /** An event was claimed once for each of its attempts, which are numbered from 1. */
  ghost predicate Counted(claims: seq<Claim>, id: EventId, event: Event) {
    && event.attempts <= MAX_ATTEMPTS
    && |Numbers(claims, id)| == event.attempts
    && (forall k :: 0 <= k < event.attempts ==> Numbers(claims, id)[k] == k + 1)
  }

  ghost predicate OutboxInv(outbox: Outbox) {
    && (forall i :: 0 <= i < |outbox.events| ==> Counted(outbox.claims, i, outbox.events[i]))
    && (forall i :: 0 <= i < |outbox.claims| ==> outbox.claims[i].event < |outbox.events|)
    && (forall k :: 0 <= k < |outbox.candidates| ==> outbox.candidates[k].attempts < MAX_ATTEMPTS)
    && (forall i, k :: 0 <= i < k < |outbox.events| ==> outbox.events[i].key != outbox.events[k].key)
    && (forall id :: id in outbox.notifications ==>
          id < |outbox.events| && DistinctUsers(outbox.notifications[id].recipients))
  }

  lemma NumbersAppend(claims: seq<Claim>, claim: Claim, id: EventId)
    ensures Numbers(claims + [claim], id) == Numbers(claims, id) + if claim.event == id then [claim.number] else []
  {
    assert (claims + [claim])[..|claims|] == claims;
  }

  lemma {:induction false} NoNumbers(claims: seq<Claim>, id: EventId)
    requires forall i :: 0 <= i < |claims| ==> claims[i].event != id
    ensures Numbers(claims, id) == []
  {
    if claims != [] {
      NoNumbers(claims[..|claims| - 1], id);
    }
  }

  lemma ClaimKeeps(outbox: Outbox, k: nat)
    requires OutboxInv(outbox)
    ensures OutboxInv(Take(outbox, TryClaim(k)))
  {
    var after := Take(outbox, TryClaim(k));
    if after != outbox {
      var claim := after.claims[|outbox.claims|];
      forall i | 0 <= i < |after.events| ensures Counted(after.claims, i, after.events[i]) {
        assert Counted(outbox.claims, i, outbox.events[i]);
        NumbersAppend(outbox.claims, claim, i);
      }
    }
  }

  lemma EnqueueKeeps(outbox: Outbox, key: string, availableAt: int)
    requires OutboxInv(outbox)
    ensures OutboxInv(Take(outbox, Enqueue(key, availableAt)))
  {
    var after := Take(outbox, Enqueue(key, availableAt));
    NoNumbers(outbox.claims, |outbox.events|);
    forall i | 0 <= i < |after.events| ensures Counted(after.claims, i, after.events[i]) {
      if i < |outbox.events| {
        assert Counted(outbox.claims, i, outbox.events[i]);
      }
    }
  }

  /** Steps that leave attempts, keys and claims alone. */
  lemma MarkKeeps(outbox: Outbox, events: seq<Event>)
    requires OutboxInv(outbox) && |events| == |outbox.events|
    requires forall i :: 0 <= i < |events| ==>
      events[i].attempts == outbox.events[i].attempts && events[i].key == outbox.events[i].key
    ensures OutboxInv(outbox.(events := events))
  {
    forall i | 0 <= i < |events| ensures Counted(outbox.claims, i, events[i]) {
      assert Counted(outbox.claims, i, outbox.events[i]);
    }
  }

  lemma MaterializeKeeps(outbox: Outbox, id: EventId, kind: EventKind, routed: seq<UserId>, preferences: Preferences)
    requires OutboxInv(outbox)
    ensures OutboxInv(Take(outbox, Materialize(id, kind, routed, preferences)))
  {
    RowsMean(routed, preferences, kind);
  }

  lemma TakeKeeps(outbox: Outbox, step: Step)
    requires OutboxInv(outbox)
    ensures OutboxInv(Take(outbox, step))
  {
    match step
    case Enqueue(key, availableAt) => EnqueueKeeps(outbox, key, availableAt);
    case RecoverStale(now) => MarkKeeps(outbox, Recover(outbox.events, now));
    case Pick(_, _, _) =>
    case TryClaim(k) => ClaimKeeps(outbox, k);
    case MarkProcessed(id) => MarkKeeps(outbox, Take(outbox, step).events);
    case MarkFailed(id, _, _) => MarkKeeps(outbox, Take(outbox, step).events);
    case Materialize(id, kind, routed, preferences) => MaterializeKeeps(outbox, id, kind, routed, preferences);
  }

  lemma {:induction false} RunKeeps(steps: seq<Step>)
    ensures OutboxInv(Interleave(EMPTY, steps))
  {
    if steps != [] {
      RunKeeps(steps[..|steps| - 1]);
      TakeKeeps(Interleave(EMPTY, steps[..|steps| - 1]), steps[|steps| - 1]);
    }
  }

  // --------------------------------------------------------------------- theorems

  /** Successful claims of an event equal its attempts, are numbered 1, 2, ... and never exceed five. */
  lemma {:induction false} ClaimsMatchAttempts(steps: seq<Step>, id: EventId)
    requires id < |Interleave(EMPTY, steps).events|
    ensures var outbox := Interleave(EMPTY, steps);
      var numbers := Numbers(outbox.claims, id);
      && |numbers| == outbox.events[id].attempts <= 5
      && (forall k :: 0 <= k < |numbers| ==> numbers[k] == k + 1)
  {
    RunKeeps(steps);
    var outbox := Interleave(EMPTY, steps);
    assert Counted(outbox.claims, id, outbox.events[id]);
  }

  /** Where a claim stands among the claims of its event. */
  lemma {:induction false} NumberAt(claims: seq<Claim>, i: nat)
    requires i < |claims|
    ensures var id := claims[i].event;
      && |Numbers(claims[..i], id)| < |Numbers(claims, id)|
      && Numbers(claims, id)[|Numbers(claims[..i], id)|] == claims[i].number
  {
    var last := |claims| - 1;
    if i == last {
    } else {
      NumberAt(claims[..last], i);
      assert claims[..last][..i] == claims[..i];
    }
  }

  lemma {:induction false} NumbersGrow(claims: seq<Claim>, i: nat, k: nat)
    requires i < k < |claims| && claims[i].event == claims[k].event
    ensures |Numbers(claims[..i], claims[i].event)| < |Numbers(claims[..k], claims[i].event)|
  {
    NumberAt(claims[..k], i);
    assert claims[..k][..i] == claims[..i];
  }

  /** No attempt of an event is won by two workers, or twice by one. */
  lemma EachAttemptWonOnce(steps: seq<Step>, i: nat, k: nat)
    requires var claims := Interleave(EMPTY, steps).claims;
      i < k < |claims| && claims[i].event == claims[k].event
    ensures var claims := Interleave(EMPTY, steps).claims; claims[i].number < claims[k].number
  {
    RunKeeps(steps);
    var outbox := Interleave(EMPTY, steps);
    LaterNumber(outbox.claims, i, k, outbox.events[outbox.claims[i].event]);
  }

  lemma LaterNumber(claims: seq<Claim>, i: nat, k: nat, event: Event)
    requires i < k < |claims| && claims[i].event == claims[k].event
    requires Counted(claims, claims[i].event, event)
    ensures claims[i].number < claims[k].number
  {
    NumberAt(claims, i);
    NumberAt(claims, k);
    NumbersGrow(claims, i, k);
  }

  /** The attempts that all events together have left. */
  function AttemptsLeft(events: seq<Event>): int {
    if events == [] then 0
    else AttemptsLeft(events[..|events| - 1]) + MAX_ATTEMPTS - events[|events| - 1].attempts
  }

  lemma {:induction false} LeftAfterChange(events: seq<Event>, id: EventId, event: Event)
    requires id < |events|
    ensures AttemptsLeft(events[id := event]) == AttemptsLeft(events) + events[id].attempts - event.attempts
  {
    var last := |events| - 1;
    if id < last {
      LeftAfterChange(events[..last], id, event);
      assert events[id := event][..last] == events[..last][id := event];
    } else {
      assert events[id := event][..last] == events[..last];
    }
  }

  lemma {:induction false} SameAttempts(a: seq<Event>, b: seq<Event>)
    requires |a| == |b| && forall i :: 0 <= i < |a| ==> a[i].attempts == b[i].attempts
    ensures AttemptsLeft(a) == AttemptsLeft(b)
  {
    if a != [] {
      SameAttempts(a[..|a| - 1], b[..|b| - 1]);
    }
  }

  lemma {:induction false} LeftNonNegative(events: seq<Event>)
    requires forall i :: 0 <= i < |events| ==> events[i].attempts <= MAX_ATTEMPTS
    ensures 0 <= AttemptsLeft(events)
  {
    if events != [] {
      LeftNonNegative(events[..|events| - 1]);
    }
  }

  /** Each claim uses up one attempt, and only a new event adds any. */
  lemma TakeLeft(outbox: Outbox, step: Step)
    ensures var after := Take(outbox, step);
      && |outbox.events| <= |after.events| && |outbox.claims| <= |after.claims|
      && |after.claims| - |outbox.claims| ==
         AttemptsLeft(outbox.events) - AttemptsLeft(after.events) + MAX_ATTEMPTS * (|after.events| - |outbox.events|)
  {
    var after := Take(outbox, step);
    match step
    case Enqueue(key, availableAt) =>
      if after != outbox {
        assert after.events[..|outbox.events|] == outbox.events;
      }
    case RecoverStale(now) => SameAttempts(outbox.events, after.events);
    case TryClaim(k) =>
      if after.claims != outbox.claims {
        var id := outbox.candidates[k].event;
        LeftAfterChange(outbox.events, id, after.events[id]);
      }
    case MarkProcessed(id) => SameAttempts(outbox.events, after.events);
    case MarkFailed(id, _, _) => SameAttempts(outbox.events, after.events);
    case _ =>
  }

  /** Claiming ends: claims made and attempts left add up to five for every event there is. */
  lemma {:induction false} ClaimingEnds(steps: seq<Step>)
    ensures var outbox := Interleave(EMPTY, steps);
      && |outbox.claims| + AttemptsLeft(outbox.events) == 5 * |outbox.events|
      && |outbox.claims| <= 5 * |outbox.events|
  {
    if steps != [] {
      ClaimingEnds(steps[..|steps| - 1]);
      TakeLeft(Interleave(EMPTY, steps[..|steps| - 1]), steps[|steps| - 1]);
    }
    RunKeeps(steps);
    var outbox := Interleave(EMPTY, steps);
    assert forall i :: 0 <= i < |outbox.events| ==> Counted(outbox.claims, i, outbox.events[i]);
    LeftNonNegative(outbox.events);
  }

  /** Two workers that read the same attempt of an event cannot both claim it. */
  lemma OneWinnerPerAttempt(outbox: Outbox, i: nat, k: nat)
    requires i < |outbox.candidates| && k < |outbox.candidates|
    requires outbox.candidates[i].event == outbox.candidates[k].event
    requires outbox.candidates[i].attempts == outbox.candidates[k].attempts
    requires |Take(outbox, TryClaim(i)).claims| == |outbox.claims| + 1
    ensures Take(Take(outbox, TryClaim(i)), TryClaim(k)) == Take(outbox, TryClaim(i))
  {
  }

  ghost predicate EventsGrow(before: Outbox, after: Outbox) {
    && |before.events| <= |after.events|
    && (forall i :: 0 <= i < |before.events| ==> before.events[i].attempts <= after.events[i].attempts)
    && (forall id :: id in before.notifications ==>
          id in after.notifications && after.notifications[id] == before.notifications[id])
  }

  lemma {:induction false} LaterSteps(outbox: Outbox, more: seq<Step>)
    requires OutboxInv(outbox)
    ensures OutboxInv(Interleave(outbox, more)) && EventsGrow(outbox, Interleave(outbox, more))
  {
    if more != [] {
      LaterSteps(outbox, more[..|more| - 1]);
      TakeKeeps(Interleave(outbox, more[..|more| - 1]), more[|more| - 1]);
    }
  }

  /** An event that used its five attempts is never claimed again, however often it is recovered or marked. */
  lemma ExhaustedStaysExhausted(steps: seq<Step>, more: seq<Step>, id: EventId)
    requires var outbox := Interleave(EMPTY, steps);
      id < |outbox.events| && outbox.events[id].attempts == MAX_ATTEMPTS
    ensures var after := Interleave(Interleave(EMPTY, steps), more);
      && id < |after.events| && after.events[id].attempts == MAX_ATTEMPTS
      && |Numbers(after.claims, id)| == MAX_ATTEMPTS
  {
    RunKeeps(steps);
    LaterSteps(Interleave(EMPTY, steps), more);
    var after := Interleave(Interleave(EMPTY, steps), more);
    assert Counted(after.claims, id, after.events[id]);
  }

  /**
   * The first notification made for an event is the only one, whoever else materialises it later, with one
   * row per user.
   */
  lemma MaterialisedOnce(steps: seq<Step>, more: seq<Step>, id: EventId)
    requires id in Interleave(EMPTY, steps).notifications
    ensures var before, after := Interleave(EMPTY, steps), Interleave(Interleave(EMPTY, steps), more);
      && id in after.notifications
      && after.notifications[id] == before.notifications[id]
      && DistinctUsers(after.notifications[id].recipients)
  {
    RunKeeps(steps);
    LaterSteps(Interleave(EMPTY, steps), more);
  }

  /** No two events carry one idempotency key. */
  lemma {:induction false} OneEventPerKey(steps: seq<Step>, i: nat, k: nat)
    requires i < |Interleave(EMPTY, steps).events| && k < |Interleave(EMPTY, steps).events|
    requires Interleave(EMPTY, steps).events[i].key == Interleave(EMPTY, steps).events[k].key
    ensures i == k
  {
    RunKeeps(steps);
  }

  /** A processed event is left alone by every step but one: a worker that lost its lock and marks it failed. */
  lemma ProcessedEndsExactlyWhenMarkedFailed(outbox: Outbox, step: Step, id: EventId)
    requires id < |outbox.events| && outbox.events[id].status.Processed?
    ensures id < |Take(outbox, step).events|
    ensures Take(outbox, step).events[id].status.Processed? <==> !(step.MarkFailed? && step.event == id)
  {
  }

  /** A worker claims the event and stalls, a second one recovers the lock, claims it again and processes it. */
  const STALLED: seq<Step> := [
    Enqueue("k", 0), Pick(1, 0, 0), TryClaim(0),
    RecoverStale(400000), Pick(2, 0, 400000), TryClaim(1), MarkProcessed(0)]

  lemma StalledThenProcessed()
    ensures Interleave(EMPTY, STALLED) == Outbox(
      [Event("k", Processed, 2, 400000, None)],
      [Candidate(1, 0, 0, 0), Candidate(2, 0, 1, 400000)],
      [Claim(1, 0, 1), Claim(2, 0, 2)],
      map[])
  {
    var queued := Take(EMPTY, Enqueue("k", 0));
    assert queued.events == [Event("k", Pending, 0, 0, None)];
    var claimed := Take(Take(queued, Pick(1, 0, 0)), TryClaim(0));
    assert claimed.events == [Event("k", Processing, 1, 0, Some(0))];
    var recovered := Take(claimed, RecoverStale(400000));
    assert recovered.events == [Event("k", Failed, 1, 400000, None)];
    var again := Take(Take(recovered, Pick(2, 0, 400000)), TryClaim(1));
    assert again.events == [Event("k", Processing, 2, 400000, Some(400000))];
    SevenSteps(EMPTY, Enqueue("k", 0), Pick(1, 0, 0), TryClaim(0), RecoverStale(400000), Pick(2, 0, 400000),
               TryClaim(1), MarkProcessed(0));
  }

  /**
   * It does come back: the stalled worker's failure mark lands after the other one processed the event,
   * and a third attempt is claimed.
   */
  lemma StalledWorkerReopens()
    ensures var processed := Interleave(EMPTY, STALLED);
      var end := Interleave(processed, [MarkFailed(0, 2, 400000), Pick(2, 0, 500000), TryClaim(2)]);
      && |processed.events| == 1 && processed.events[0].status.Processed?
      && |end.claims| == 3 && end.claims[2] == Claim(2, 0, 3)
  {
    StalledThenProcessed();
    ThirdAttempt(Interleave(EMPTY, STALLED));
  }

  lemma ThirdAttempt(processed: Outbox)
    requires processed.events == [Event("k", Processed, 2, 400000, None)]
    requires |processed.candidates| == 2 && |processed.claims| == 2
    ensures var end := Interleave(processed, [MarkFailed(0, 2, 400000), Pick(2, 0, 500000), TryClaim(2)]);
      |end.claims| == 3 && end.claims[2] == Claim(2, 0, 3)
  {
    assert RetrySeconds(2) == 20 by {
      assert PowerOfTwo(1) == 2;
    }
    var failed := Take(processed, MarkFailed(0, 2, 400000));
    assert failed.events == [Event("k", Failed, 2, 420000, None)];
    ThreeSteps(processed, MarkFailed(0, 2, 400000), Pick(2, 0, 500000), TryClaim(2));
  }

  lemma ThreeSteps(outbox: Outbox, a: Step, b: Step, c: Step)
    ensures Interleave(outbox, [a, b, c]) == Take(Take(Take(outbox, a), b), c)
  {
    assert [a, b, c][..2] == [a, b] && [a, b][..1] == [a] && [a][..0] == [];
    assert Interleave(outbox, [a]) == Take(outbox, a);
    assert Interleave(outbox, [a, b]) == Take(Take(outbox, a), b);
  }

  lemma {:induction false} InterleaveSplit(outbox: Outbox, first: seq<Step>, more: seq<Step>)
    ensures Interleave(outbox, first + more) == Interleave(Interleave(outbox, first), more)
  {
    if more == [] {
      assert first + more == first;
    } else {
      InterleaveSplit(outbox, first, more[..|more| - 1]);
      assert (first + more)[..|first + more| - 1] == first + more[..|more| - 1];
    }
  }

  lemma SevenSteps(outbox: Outbox, a: Step, b: Step, c: Step, d: Step, e: Step, f: Step, g: Step)
    ensures Interleave(outbox, [a, b, c, d, e, f, g]) ==
            Take(Take(Take(Take(Take(Take(Take(outbox, a), b), c), d), e), f), g)
  {
    InterleaveSplit(outbox, [a, b, c], [d, e, f] + [g]);
    InterleaveSplit(Interleave(outbox, [a, b, c]), [d, e, f], [g]);
    ThreeSteps(outbox, a, b, c);
    ThreeSteps(Interleave(outbox, [a, b, c]), d, e, f);
    assert [a, b, c] + ([d, e, f] + [g]) == [a, b, c, d, e, f, g];
    assert [g][..0] == [];
  }

  /** The wait before a retry doubles from ten seconds and stops at five minutes. */
  lemma {:induction false} RetryWaits(attempts: nat)
    ensures 10 <= RetrySeconds(attempts) <= 300
    ensures 1 <= attempts ==>
      RetrySeconds(attempts + 1) == Min(300, 2 * RetrySeconds(attempts))
  {
    PowersArePositive(if attempts == 0 then 0 else attempts - 1);
  }

  lemma {:induction false} PowersArePositive(n: nat)
    ensures 1 <= PowerOfTwo(n)
  {
    if n > 0 {
      PowersArePositive(n - 1);
    }
  }
}
