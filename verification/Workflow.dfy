/** The delivery job row, its order mirror, and the one function that moves them. */
module Workflow {
  import opened Common
  import opened DeliveryStatus

  type RiderId = nat
  type UserId = nat

  datatype Actor =
    | Admin
    | StoreOwner(user: UserId)
    | Rider(rider: RiderId)
    | Customer(user: UserId)

  datatype StatusChange = StatusChange(from: JobStatus, to: JobStatus)

  /** The columns of the order that the job machine keeps in step with the job. */
  datatype OrderMirror = OrderMirror(status: OrderStatus, rider: Option<RiderId>)

  /** A delivery job row with its JOB_STATUS_CHANGED events in commit order. */
  datatype JobRow = JobRow(
    status: JobStatus,
    version: nat,
    rider: Option<RiderId>,
    order: OrderMirror,
    log: seq<StatusChange>)

  datatype TransitionOptions = TransitionOptions(
    expected: Option<JobStatus>,
    newRider: Option<RiderId>,
    skipRoleCheck: bool)

  /** The row after a permitted change of status. */
  function Advance(row: JobRow, next: JobStatus, newRider: Option<RiderId>): JobRow {
    var legacy := LegacyOrderStatus(next);
    var carrier := if newRider.Some? then newRider else row.rider;
    var mirrored :=
      if legacy.OrderPacked? then None
      else if carrier.Some? then carrier
      else row.order.rider;
    JobRow(
      next,
      row.version + 1,
      if next.WaitingForDispatch? then None else carrier,
      OrderMirror(legacy, mirrored),
      row.log + [StatusChange(row.status, next)])
  }

  predicate RoleAllows(row: JobRow, storeOwner: UserId, next: JobStatus, actor: Actor) {
    match actor
    case Admin => true
    case StoreOwner(user) => user == storeOwner && StoreMay(row.status, next)
    case Rider(rider) => row.rider == Some(rider) && RiderMay(row.status, next)
    case Customer(_) => false
  }

  function Transition(row: JobRow, storeOwner: UserId, next: JobStatus, actor: Actor, options: TransitionOptions)
    : (result: Result<JobRow>)
  {
    if options.expected.Some? && row.status != options.expected.value then Err(Conflict)
    else if row.status == next then Ok(row)
    else if !CanMove(row.status, next) then Err(BadRequest)
    else if !options.skipRoleCheck && !RoleAllows(row, storeOwner, next, actor) then Err(Forbidden)
    else Ok(Advance(row, next, options.newRider))
  }

  /** A service-side move: the caller has already checked who may make it. */
  function Move(row: JobRow, expected: JobStatus, next: JobStatus): Result<JobRow> {
    Transition(row, 0, next, Admin, TransitionOptions(Some(expected), None, true))
  }

  /** How many times the log enters a status. */
  function Entries(log: seq<StatusChange>, status: JobStatus): (n: nat)
    ensures n <= |log|
  {
    if log == [] then 0
    else Entries(log[..|log| - 1], status) + if log[|log| - 1].to == status then 1 else 0
  }

  /** The log is a path of the transition table that starts where jobs are created. */
  ghost predicate IsPath(log: seq<StatusChange>, last: JobStatus) {
    && (log == [] ==> last == WaitingForDispatch)
    && (log != [] ==> log[0].from == WaitingForDispatch && log[|log| - 1].to == last)
    && (forall i :: 0 <= i < |log| ==> CanMove(log[i].from, log[i].to))
    && (forall i, k :: 0 <= i && k == i + 1 && k < |log| ==> log[i].to == log[k].from)
  }

  ghost predicate RowInv(row: JobRow) {
    && row.version == |row.log|
    && IsPath(row.log, row.status)
    && (row.rider == None <==> row.status == WaitingForDispatch)
    && row.order == OrderMirror(LegacyOrderStatus(row.status), row.rider)
  }

  const FRESH_ROW: JobRow := JobRow(WaitingForDispatch, 0, None, OrderMirror(OrderPacked, None), [])

  /**
   * A permitted change, with a new rider exactly when one is assigned, keeps the row in order unless it
   * cancels a job that still waits: then a job outside the queue has no rider.
   */
  lemma AdvanceKeepsRowInv(row: JobRow, next: JobStatus, newRider: Option<RiderId>)
    requires RowInv(row)
    requires CanMove(row.status, next)
    requires newRider.Some? <==> row.status == WaitingForDispatch && next == RiderAssigned
    ensures RowInv(Advance(row, next, newRider)) <==> !(row.status.WaitingForDispatch? && next.Cancelled?)
  {
    var after := Advance(row, next, newRider);
    forall i, k | 0 <= i && k == i + 1 && k < |after.log|
      ensures after.log[i].to == after.log[k].from
    {
      if k < |row.log| {
        assert after.log[i] == row.log[i] && after.log[k] == row.log[k];
      } else {
        assert after.log[k] == StatusChange(row.status, next);
      }
    }
  }

  lemma AdvanceCounts(row: JobRow, next: JobStatus, newRider: Option<RiderId>, status: JobStatus)
    ensures Entries(Advance(row, next, newRider).log, status) ==
            Entries(row.log, status) + if next == status then 1 else 0
  {
    var log := Advance(row, next, newRider).log;
    assert log[..|log| - 1] == row.log;
  }

  /** Where an order may stand next to a mirrored status: a stutter, a table step or a rollback. */
  predicate MirrorStep(from: OrderStatus, to: OrderStatus) {
    to == from || OrderCanMove(from, to) || to == OrderPacked
  }

  /** The order statuses a log passes through. */
  function MirrorTrace(log: seq<StatusChange>): (trace: seq<OrderStatus>)
    ensures |trace| == |log| + 1
  {
    if log == [] then [OrderPacked]
    else MirrorTrace(log[..|log| - 1]) + [LegacyOrderStatus(log[|log| - 1].to)]
  }

  /** Every job history is an order history with stutters and returns to PACKED. */
  lemma {:induction false} SimulatesOrder(log: seq<StatusChange>, last: JobStatus)
    requires IsPath(log, last)
    ensures var trace := MirrorTrace(log);
            && trace[0] == OrderPacked
            && trace[|log|] == LegacyOrderStatus(last)
            && forall i, k :: 0 <= i && k == i + 1 && k < |trace| ==> MirrorStep(trace[i], trace[k])
  {
    if log == [] {
    } else {
      var front := log[..|log| - 1];
      var change := log[|log| - 1];
      if front != [] {
        assert front[|front| - 1].to == log[|front|].from;
      }
      assert IsPath(front, change.from);
      SimulatesOrder(front, change.from);
      assert CanMove(change.from, change.to);
    }
  }

  /** A job created for an order that already exists mirrors it at once. */
  lemma CreationMirrors(status: OrderStatus)
    ensures LegacyOrderStatus(InitialStatus(status)) == status <==> IsCreatable(status)
  {
  }
}
