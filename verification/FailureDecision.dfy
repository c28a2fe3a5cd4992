/** What is decided after a failed delivery, and how a decision is opened and closed. */
module FailureDecision {
  import opened Common
  import opened DeliveryStatus
  import opened Workflow

  datatype FailureReason =
    | CustomerUnreachable
    | CustomerRefused
    | AddressNotFound
    | WrongAddress
    | PaymentNotAvailable
    | VehicleBreakdown
    | PackageDamaged
    | SafetyConcern
    | OtherReason

  datatype Action = RetryDelivery | ReassignRider | ReturnToStore | CancelAndRefund | EscalateToAdmin

  function Recommend(reason: FailureReason): Action {
    match reason
    case CustomerUnreachable | PaymentNotAvailable => RetryDelivery
    case CustomerRefused | PackageDamaged => ReturnToStore
    case VehicleBreakdown => ReassignRider
    case AddressNotFound | WrongAddress | SafetyConcern | OtherReason => EscalateToAdmin
  }

  datatype DecisionStatus = Decided | InProgress | Completed

  datatype Decision = Decision(
    reason: FailureReason,
    recommended: Action,
    decided: Action,
    status: DecisionStatus,
    overridden: bool)

  predicate IsOpen(decision: Decision) {
    decision.status.Decided? || decision.status.InProgress?
  }

  function Decide(reason: FailureReason): Decision {
    Decision(reason, Recommend(reason), Recommend(reason), Decided, false)
  }

  /** The latest open decision. */
  function LatestOpen(decisions: seq<Decision>): (found: Option<nat>)
    ensures found.Some? ==> found.value < |decisions| && IsOpen(decisions[found.value])
    ensures found.None? ==> forall i :: 0 <= i < |decisions| ==> !IsOpen(decisions[i])
  {
    if decisions == [] then None
    else
      var last := |decisions| - 1;
      if IsOpen(decisions[last]) then Some(last) else LatestOpen(decisions[..last])
  }

  function ApplyAction(decision: Decision, action: Action): Decision {
    decision.(
      decided := action,
      status := if action.EscalateToAdmin? then InProgress else Completed,
      overridden := action != decision.recommended)
  }

  /** A decision follows the policy for its reason or says that it was overridden. */
  predicate Traceable(decision: Decision) {
    && decision.recommended == Recommend(decision.reason)
    && (decision.overridden <==> decision.decided != decision.recommended)
  }

  /** One decision per failure; only the last may be open, and it is open exactly while the job is failed. */
  ghost predicate DecisionInv(row: JobRow, decisions: seq<Decision>) {
    && |decisions| == Entries(row.log, DeliveryFailed)
    && (row.status.DeliveryFailed? ==> decisions != [] && IsOpen(decisions[|decisions| - 1]))
    && (forall i :: 0 <= i < |decisions| && IsOpen(decisions[i]) ==> row.status.DeliveryFailed? && i == |decisions| - 1)
    && (forall i :: 0 <= i < |decisions| ==> Traceable(decisions[i]))
  }

  /** Closed decisions are never reopened. */
  ghost predicate DecisionsGrow(before: seq<Decision>, after: seq<Decision>) {
    && |before| <= |after|
    && (forall i :: 0 <= i < |before| && !IsOpen(before[i]) ==> after[i] == before[i])
  }

  /** A new failure opens one decision. */
  lemma DecideKeeps(row: JobRow, after: JobRow, decisions: seq<Decision>, reason: FailureReason)
    requires DecisionInv(row, decisions) && !row.status.DeliveryFailed? && after.status.DeliveryFailed?
    requires Entries(after.log, DeliveryFailed) == Entries(row.log, DeliveryFailed) + 1
    ensures DecisionInv(after, decisions + [Decide(reason)])
    ensures DecisionsGrow(decisions, decisions + [Decide(reason)])
  {
  }

  /** While a job is failed its last decision is the open one. */
  lemma OpenIsLast(row: JobRow, decisions: seq<Decision>)
    requires DecisionInv(row, decisions) && row.status.DeliveryFailed?
    ensures LatestOpen(decisions) == Some(|decisions| - 1)
  {
  }

  /** Leaving the failed status closes the open decision; escalating keeps it open. */
  lemma CloseKeeps(row: JobRow, after: JobRow, decisions: seq<Decision>, next: Decision)
    requires DecisionInv(row, decisions) && row.status.DeliveryFailed?
    requires Entries(after.log, DeliveryFailed) == Entries(row.log, DeliveryFailed)
    requires IsOpen(next) <==> after.status.DeliveryFailed?
    requires Traceable(next)
    ensures DecisionInv(after, decisions[|decisions| - 1 := next])
    ensures DecisionsGrow(decisions, decisions[|decisions| - 1 := next])
  {
    var updated := decisions[|decisions| - 1 := next];
    assert forall i :: 0 <= i < |decisions| - 1 ==> updated[i] == decisions[i] && !IsOpen(decisions[i]);
  }

  lemma IdleKeeps(row: JobRow, after: JobRow, decisions: seq<Decision>)
    requires DecisionInv(row, decisions) && !row.status.DeliveryFailed? && !after.status.DeliveryFailed?
    requires Entries(after.log, DeliveryFailed) == Entries(row.log, DeliveryFailed)
    ensures DecisionInv(after, decisions)
  {
  }
}
