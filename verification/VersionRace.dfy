/**
 * Status changes of one job when reading it and writing it are separate steps, taken by any number of
 * requests in any order. The write is conditional on the status and the version that were read.
 */
module VersionRace {
  import opened Common
  import opened DeliveryStatus
  import opened Workflow

  type RequestId = nat

  datatype Call = Call(next: JobStatus, actor: Actor, options: TransitionOptions)

  /** A request between its read and its write, with the row as it saw it. */
  datatype InFlight = InFlight(call: Call, seen: JobRow)

  /** A write that went through, with the version it replaced. */
  datatype Win = Win(request: RequestId, call: Call, version: nat)

  datatype Race = Race(
    row: JobRow,
    storeOwner: UserId,
    inFlight: map<RequestId, InFlight>,
    started: set<RequestId>,
    wins: seq<Win>)

  datatype Step =
    | Read(request: RequestId, call: Call)
    | Write(request: RequestId)

  function StartRace(row: JobRow, storeOwner: UserId): Race {
    Race(row, storeOwner, map[], {}, [])
  }

  /** Reads the row and makes every check; only a real change goes on to the write. */
  function ReadRow(race: Race, request: RequestId, call: Call): Race {
    if request in race.started then race
    else
      var begun := race.(started := race.started + {request});
      if race.row.status == call.next || Transition(race.row, race.storeOwner, call.next, call.actor, call.options).Err?
      then begun
      else begun.(inFlight := race.inFlight[request := InFlight(call, race.row)])
  }

  /** The columns the write sets on the row it finds, some of them computed from the row that was read. */
  function Overwrite(row: JobRow, seen: JobRow, call: Call): JobRow {
    var legacy := LegacyOrderStatus(call.next);
    var effective := if call.options.newRider.Some? then call.options.newRider else seen.rider;
    JobRow(
      call.next,
      row.version + 1,
      if call.next.WaitingForDispatch? then None
      else if call.options.newRider.Some? then call.options.newRider
      else row.rider,
      OrderMirror(
        legacy,
        if legacy.OrderPacked? then None else if effective.Some? then effective else row.order.rider),
      row.log + [StatusChange(seen.status, call.next)])
  }

  function WriteRow(race: Race, request: RequestId): Race {
    if request !in race.inFlight then race
    else
      var mine := race.inFlight[request];
      var landed := race.(inFlight := race.inFlight - {request});
      if race.row.status == mine.seen.status && race.row.version == mine.seen.version then
        landed.(
          row := Overwrite(race.row, mine.seen, mine.call),
          wins := race.wins + [Win(request, mine.call, race.row.version)])
      else landed
  }

  function Take(race: Race, step: Step): Race {
    match step
    case Read(request, call) => ReadRow(race, request, call)
    case Write(request) => WriteRow(race, request)
  }

  function Interleave(start: Race, steps: seq<Step>): Race {
    if steps == [] then start
    else Take(Interleave(start, steps[..|steps| - 1]), steps[|steps| - 1])
  }

  /** The same calls made one after the other, each read and written at once. */
  function OneByOne(row: JobRow, storeOwner: UserId, wins: seq<Win>): Result<JobRow> {
    if wins == [] then Ok(row)
    else
      var before :- OneByOne(row, storeOwner, wins[..|wins| - 1]);
      var call := wins[|wins| - 1].call;
      Transition(before, storeOwner, call.next, call.actor, call.options)
  }

  ghost predicate Fresh(row: JobRow, inFlight: InFlight, storeOwner: UserId) {
    && inFlight.seen.version <= row.version
    && (inFlight.seen.version == row.version ==> inFlight.seen == row)
    && inFlight.seen.status != inFlight.call.next
    && Transition(inFlight.seen, storeOwner, inFlight.call.next, inFlight.call.actor, inFlight.call.options).Ok?
  }

  /** The row counts the wins, which number the versions they replaced. */
  ghost predicate Counted(start: JobRow, race: Race) {
    && race.row.version == start.version + |race.wins|
    && |race.row.log| == |start.log| + |race.wins|
    && start.log <= race.row.log
    && (forall i :: 0 <= i < |race.wins| ==> race.wins[i].version == start.version + i)
  }

  /** A request is read once, in flight or landed, and wins at most once. */
  ghost predicate OnceEach(race: Race) {
    && (forall request :: request in race.inFlight ==> request in race.started)
    && (forall i :: 0 <= i < |race.wins| ==>
          race.wins[i].request in race.started && race.wins[i].request !in race.inFlight)
    && (forall i, k :: 0 <= i < k < |race.wins| ==> race.wins[i].request != race.wins[k].request)
  }

  ghost predicate AllFresh(race: Race) {
    forall request :: request in race.inFlight ==> Fresh(race.row, race.inFlight[request], race.storeOwner)
  }

  ghost predicate RaceInv(start: JobRow, race: Race) {
    && Counted(start, race)
    && OnceEach(race)
    && AllFresh(race)
    && OneByOne(start, race.storeOwner, race.wins) == Ok(race.row)
    && Chained(start, race.row)
  }

  ghost predicate Link(start: JobRow, row: JobRow, i: nat)
    requires |start.log| <= i < |row.log|
  {
    && CanMove(row.log[i].from, row.log[i].to)
    && row.log[i].from == if i == |start.log| then start.status else row.log[i - 1].to
  }

  /** The entries added since the start are steps of the table, each beginning where the last one ended. */
  ghost predicate Chained(start: JobRow, row: JobRow) {
    && |start.log| <= |row.log|
    && (forall i :: |start.log| <= i < |row.log| ==> Link(start, row, i))
    && row.status == if |row.log| == |start.log| then start.status else row.log[|row.log| - 1].to
  }

  lemma ChainedStep(start: JobRow, row: JobRow, next: JobStatus, newRider: Option<RiderId>)
    requires Chained(start, row) && CanMove(row.status, next)
    ensures Chained(start, Advance(row, next, newRider))
  {
    var after := Advance(row, next, newRider);
    forall i | |start.log| <= i < |after.log| ensures Link(start, after, i) {
      if i < |row.log| {
        assert Link(start, row, i);
      }
    }
  }

  /** What was read is still there when the versions agree, so the write is the atomic transition. */
  lemma WinIsTransition(race: Race, request: RequestId)
    requires request in race.inFlight && Fresh(race.row, race.inFlight[request], race.storeOwner)
    requires race.row.version == race.inFlight[request].seen.version
    ensures var call := race.inFlight[request].call;
      var next := Overwrite(race.row, race.inFlight[request].seen, call);
      && Transition(race.row, race.storeOwner, call.next, call.actor, call.options) == Ok(next)
      && next == Advance(race.row, call.next, call.options.newRider)
      && CanMove(race.row.status, call.next)
  {
  }

  /** A write that lands too late only leaves the race. */
  lemma LostKeeps(start: JobRow, race: Race, request: RequestId)
    requires RaceInv(start, race) && WriteRow(race, request).wins == race.wins
    ensures RaceInv(start, WriteRow(race, request))
  {
  }

  lemma WonOnce(race: Race, request: RequestId)
    requires OnceEach(race) && request in race.inFlight
    ensures OnceEach(WriteRow(race, request))
  {
  }

  lemma WonFresh(race: Race, request: RequestId)
    requires AllFresh(race) && WriteRow(race, request).row.version == race.row.version + 1
    ensures AllFresh(WriteRow(race, request))
  {
  }

  lemma WriteKeeps(start: JobRow, race: Race, request: RequestId)
    requires RaceInv(start, race)
    ensures RaceInv(start, WriteRow(race, request))
  {
    var after := WriteRow(race, request);
    if after.wins == race.wins {
      LostKeeps(start, race, request);
    } else {
      var mine := race.inFlight[request];
      WinIsTransition(race, request);
      ChainedStep(start, race.row, mine.call.next, mine.call.options.newRider);
      WonOnce(race, request);
      WonFresh(race, request);
      assert after.wins[..|after.wins| - 1] == race.wins;
    }
  }

  lemma ReadKeeps(start: JobRow, race: Race, request: RequestId, call: Call)
    requires RaceInv(start, race)
    ensures RaceInv(start, ReadRow(race, request, call))
  {
  }

  lemma {:induction false} RaceSafe(row: JobRow, storeOwner: UserId, steps: seq<Step>)
    ensures RaceInv(row, Interleave(StartRace(row, storeOwner), steps))
    ensures Interleave(StartRace(row, storeOwner), steps).storeOwner == storeOwner
  {
    if steps == [] {
    } else {
      var front := steps[..|steps| - 1];
      RaceSafe(row, storeOwner, front);
      var before := Interleave(StartRace(row, storeOwner), front);
      match steps[|steps| - 1]
      case Read(request, call) => ReadKeeps(row, before, request, call);
      case Write(request) => WriteKeeps(row, before, request);
    }
  }

  /** However reads and writes interleave, the writes that go through are atomic transitions in their own order. */
  lemma RaceIsSerial(row: JobRow, storeOwner: UserId, steps: seq<Step>)
    ensures var end := Interleave(StartRace(row, storeOwner), steps);
      OneByOne(row, storeOwner, end.wins) == Ok(end.row)
  {
    RaceSafe(row, storeOwner, steps);
  }

  /** Committed changes form one path of the table, and the version counts them. */
  lemma CommittedChangesArePath(row: JobRow, storeOwner: UserId, steps: seq<Step>)
    ensures var end := Interleave(StartRace(row, storeOwner), steps);
      && row.log <= end.row.log
      && end.row.version == row.version + |end.wins|
      && |end.row.log| == |row.log| + |end.wins|
      && Chained(row, end.row)
  {
    RaceSafe(row, storeOwner, steps);
  }

  /** No version is consumed twice, and no request goes through twice. */
  lemma EachVersionWonOnce(row: JobRow, storeOwner: UserId, steps: seq<Step>, i: nat, k: nat)
    requires var wins := Interleave(StartRace(row, storeOwner), steps).wins; i < |wins| && k < |wins|
    ensures var wins := Interleave(StartRace(row, storeOwner), steps).wins;
      && (wins[i].version == wins[k].version ==> i == k)
      && (wins[i].request == wins[k].request ==> i == k)
      && row.version <= wins[i].version < Interleave(StartRace(row, storeOwner), steps).row.version
  {
    RaceSafe(row, storeOwner, steps);
  }

  /**
   * A write goes through exactly when nobody else's has since its read: two requests that read the same row
   * cannot both win.
   */
  lemma WinsExactlyWhenUndisturbed(row: JobRow, storeOwner: UserId, steps: seq<Step>, request: RequestId)
    requires request in Interleave(StartRace(row, storeOwner), steps).inFlight
    ensures var race := Interleave(StartRace(row, storeOwner), steps);
      (|WriteRow(race, request).wins| == |race.wins| + 1 <==> race.inFlight[request].seen.version == race.row.version)
    ensures var race := Interleave(StartRace(row, storeOwner), steps);
      |WriteRow(race, request).wins| == |race.wins| + 1 ==>
        forall other :: other in race.inFlight && other != request ==>
          WriteRow(WriteRow(race, request), other).wins == WriteRow(race, request).wins
  {
    RaceSafe(row, storeOwner, steps);
  }
}
