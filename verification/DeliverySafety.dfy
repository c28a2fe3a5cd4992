/** What every run of the delivery protocol keeps. */
module DeliverySafety {
  import opened Common
  import opened DeliveryStatus
  import opened Workflow
  import opened Payments
  import opened CodLedger
  import opened FailureDecision
  import opened DeliveryProtocol
  import Pickup
  import DeliveryOtp

  // ------------------------------------------------------------- invariants

  /** Waiting jobs have no accepted assignment; every other job has one, held by its rider. */
  ghost predicate DispatchInv(row: JobRow, assignments: seq<Assignment>) {
    && (forall i, k :: 0 <= i < |assignments| && 0 <= k < |assignments| ==>
          DeliveryProtocol.IsOpen(assignments[i]) && DeliveryProtocol.IsOpen(assignments[k]) ==> i == k)
    && (row.status == WaitingForDispatch ==>
          forall i :: 0 <= i < |assignments| ==> !assignments[i].status.Accepted?)
    && (row.status != WaitingForDispatch ==>
          exists i :: 0 <= i < |assignments|
            && assignments[i].status.Accepted? && row.rider == Some(assignments[i].rider))
  }

  /** The log enters PICKUP_VERIFIED once per pickup proof, and there is at most one proof. */
  ghost predicate HandoffInv(row: JobRow, pickup: Pickup.PickupFile) {
    && Pickup.PickupInv(pickup)
    && Entries(row.log, PickupVerified) == if pickup.proof.Some? then 1 else 0
  }

  /** A job is delivered exactly when its proof points at its only verified code, and its cash is in. */
  ghost predicate GateInv(job: Job) {
    && DeliveryOtp.OtpInv(job.otp)
    && (job.row.status == Delivered <==> job.proof.Some?)
    && (job.proof.None? ==> job.otp.verified == [])
    && (job.proof.Some? ==>
          && |job.otp.verified| == 1 && job.proof.value.otpRow == 0
          && Some(job.proof.value.rider) == job.row.rider
          && CashIsIn(job))
  }

  /** Where a job can stand while its rider holds the customer's cash. */
  predicate MayHoldCash(status: JobStatus) {
    status.OutForDelivery? || status.AtCustomer? || status.Delivered?
    || status.DeliveryFailed? || status.ReturningToStore? || status.ReturnedToStore?
  }

  /** Cash is held only by the rider of the job, and only after the parcel left the store. */
  ghost predicate CashInv(row: JobRow, payment: Option<Payment>, ledger: Option<Ledger>, collected: bool) {
    && (IsCod(payment) <==> ledger.Some?)
    && (ledger.None? ==> !collected)
    && (ledger.Some? ==>
          && LedgerInv(ledger.value)
          && ledger.value.expected == payment.value.amount
          && (collected <==> ledger.value.collected > 0)
          && (collected ==> payment.value.status.Captured?)
          && (ledger.value.holding > 0 ==>
                row.rider.Some? && ledger.value.rider == row.rider && MayHoldCash(row.status)))
  }

  ghost predicate JobInv(job: Job) {
    && RowInv(job.row)
    && DispatchInv(job.row, job.assignments)
    && HandoffInv(job.row, job.pickup)
    && GateInv(job)
    && DecisionInv(job.row, job.decisions)
    && CashInv(job.row, job.payment, job.ledger, job.collected)
  }

  /** The rider a job keeps busy. */
  function Carrier(row: JobRow): Option<RiderId> {
    if IsActive(row.status) then row.rider else None
  }

  type Carriers = map<JobId, Option<RiderId>>

  /** Which rider each job keeps busy. */
  function CarriersOf(jobs: map<JobId, Job>): (carriers: Carriers)
    ensures carriers.Keys == jobs.Keys
  {
    map id | id in jobs :: Carrier(jobs[id].row)
  }

  ghost predicate KeptBusy(carriers: Carriers, rider: RiderId) {
    exists id :: id in carriers && carriers[id] == Some(rider)
  }

  /** No rider is kept busy by two jobs, and a rider is BUSY exactly when a job keeps it busy. */
  ghost predicate RidersInv(carriers: Carriers, riders: map<RiderId, RiderStatus>) {
    && (forall a, b :: a in carriers && b in carriers && carriers[a].Some? && carriers[a] == carriers[b] ==> a == b)
    && (forall rider :: rider in riders ==> (riders[rider].Busy? <==> KeptBusy(carriers, rider)))
  }

  /** Names a job of a database; invariants are instantiated only for jobs that are named. */
  predicate At(jobs: map<JobId, Job>, id: JobId) {
    id in jobs
  }

  ghost predicate JobsInv(jobs: map<JobId, Job>) {
    forall id {:trigger At(jobs, id)} :: At(jobs, id) ==> JobInv(jobs[id])
  }

  ghost predicate DbInv(db: Db) {
    JobsInv(db.jobs) && RidersInv(CarriersOf(db.jobs), db.riders)
  }

  // ------------------------------------------------------------ what only grows

  ghost predicate AssignmentsGrow(before: seq<Assignment>, after: seq<Assignment>) {
    && |before| <= |after|
    && (forall i :: 0 <= i < |before| ==> after[i].rider == before[i].rider)
    && (forall i :: 0 <= i < |before| && !DeliveryProtocol.IsOpen(before[i]) ==> after[i] == before[i])
  }

  ghost predicate LedgerGrows(before: Option<Ledger>, after: Option<Ledger>) {
    before.Some? ==> after.Some? && before.value.entries <= after.value.entries
  }

  predicate IsFinal(status: JobStatus) {
    status.Delivered? || status.ReturnedToStore? || status.Cancelled?
  }

  /** History is never rewritten: logs extend, closed rows stay closed, final jobs stay put. */
  ghost predicate JobGrows(before: Job, after: Job) {
    && before.row.log <= after.row.log
    && (IsFinal(before.row.status) ==> after.row == before.row)
    && (after.assignments == before.assignments || AssignmentsGrow(before.assignments, after.assignments))
    && (after.pickup == before.pickup || Pickup.PickupGrows(before.pickup, after.pickup))
    && (after.otp == before.otp || DeliveryOtp.OtpGrows(before.otp, after.otp))
    && (before.proof.Some? ==> after.proof == before.proof)
    && (after.decisions == before.decisions || DecisionsGrow(before.decisions, after.decisions))
    && (after.ledger == before.ledger || LedgerGrows(before.ledger, after.ledger))
    && (before.collected ==> after.collected)
  }

  /** A transaction leaves the row alone or takes one step of the table from an active status. */
  ghost predicate RowStep(before: JobRow, after: JobRow) {
    || after == before
    || (&& IsActive(before.status)
        && CanMove(before.status, after.status)
        && after == Advance(before, after.status, None))
  }

  ghost predicate Keeps(before: Job, result: Result<Saved>) {
    result.Ok? ==>
      && JobInv(result.value.job)
      && JobGrows(before, result.value.job)
      && RowStep(before.row, result.value.job.row)
      && |result.value.job.assignments| == |before.assignments|
  }

  lemma StepRow(row: JobRow, next: JobStatus)
    requires RowInv(row) && IsActive(row.status) && CanMove(row.status, next)
    ensures var after := Advance(row, next, None);
      && RowInv(after)
      && row.log <= after.log
      && Entries(after.log, PickupVerified) ==
         Entries(row.log, PickupVerified) + (if next == PickupVerified then 1 else 0)
      && Entries(after.log, DeliveryFailed) ==
         Entries(row.log, DeliveryFailed) + (if next == DeliveryFailed then 1 else 0)
      && after.rider == if next == WaitingForDispatch then None else row.rider
  {
    AdvanceKeepsRowInv(row, next, None);
    AdvanceCounts(row, next, None, PickupVerified);
    AdvanceCounts(row, next, None, DeliveryFailed);
  }

  /** What a step of the row keeps about the assignments and the cash. */
  lemma StepJob(job: Job, next: JobStatus)
    requires RowInv(job.row) && IsActive(job.row.status) && CanMove(job.row.status, next)
    requires DispatchInv(job.row, job.assignments) && CashInv(job.row, job.payment, job.ledger, job.collected)
    requires next != WaitingForDispatch
    requires next == Cancelled ==> !HoldsCash(job)
    ensures var after := Advance(job.row, next, None);
      && DispatchInv(after, job.assignments)
      && CashInv(after, job.payment, job.ledger, job.collected)
  {
  }

  /** A step that neither hands over nor delivers keeps the pickup file and the gate as they are. */
  lemma StepFiles(job: Job, after: Job)
    requires HandoffInv(job.row, job.pickup) && GateInv(job)
    requires !job.row.status.Delivered? && !after.row.status.Delivered?
    requires after.pickup == job.pickup && after.otp == job.otp && after.proof == job.proof
    requires Entries(after.row.log, PickupVerified) == Entries(job.row.log, PickupVerified)
    ensures HandoffInv(after.row, after.pickup) && GateInv(after)
  {
  }

  /** A transition that is granted is a stutter or one step of the table. */
  lemma GrantedStep(row: JobRow, storeOwner: UserId, next: JobStatus, actor: Actor, options: TransitionOptions)
    requires Transition(row, storeOwner, next, actor, options).Ok?
    ensures Transition(row, storeOwner, next, actor, options).value ==
            if row.status == next then row else Advance(row, next, options.newRider)
    ensures row.status == next || CanMove(row.status, next)
  {
  }

  // ---------------------------------------------------------- one job at a time

  /** Moves that concern the row only: travelling and receiving a returned parcel. */
  lemma MoveKeeps(job: Job, next: JobStatus)
    requires JobInv(job) && IsActive(job.row.status) && CanMove(job.row.status, next)
    requires !job.row.status.DeliveryFailed?
    requires next.EnRouteToStore? || next.AtStore? || next.OutForDelivery? || next.AtCustomer? || next.ReturnedToStore?
    ensures Keeps(job, Ok(Saved(job.(row := Advance(job.row, next, None)), Done)))
  {
    StepRow(job.row, next);
    StepJob(job, next);
    IdleKeeps(job.row, Advance(job.row, next, None), job.decisions);
  }

  lemma TravelKeeps(job: Job, leg: Leg, rider: RiderId)
    requires JobInv(job)
    ensures Keeps(job, Travel(job, leg, rider))
  {
    var result := Travel(job, leg, rider);
    if result.Ok? && result.value.job.row != job.row {
      MoveKeeps(job, Destination(leg));
    }
  }

  lemma SweptDispatch(row: JobRow, assignments: seq<Assignment>, now: int)
    requires DispatchInv(row, assignments)
    ensures DispatchInv(row, ExpireOverdue(assignments, now))
    ensures AssignmentsGrow(assignments, ExpireOverdue(assignments, now))
  {
    var after := ExpireOverdue(assignments, now);
    if row.status != WaitingForDispatch {
      var i :| 0 <= i < |assignments| && assignments[i].status.Accepted? && row.rider == Some(assignments[i].rider);
      assert after[i] == assignments[i];
    }
  }

  lemma SweepKeeps(job: Job, now: int)
    requires JobInv(job)
    ensures Keeps(job, SweepOffers(job, now))
  {
    SweptDispatch(job.row, job.assignments, now);
  }

  /** Rejecting a held assignment requeues the job; rejecting an offer touches only the offer. */
  lemma RejectedDispatch(job: Job, i: nat)
    requires RowInv(job.row) && DispatchInv(job.row, job.assignments)
    requires i < |job.assignments| && RejectedJob(job, i).Ok?
    ensures var after := RejectedJob(job, i).value.job;
      && DispatchInv(after.row, after.assignments)
      && AssignmentsGrow(job.assignments, after.assignments)
    ensures job.assignments[i].status.Accepted? ==>
      job.row.status == RiderAssigned && job.row.rider == Some(job.assignments[i].rider)
  {
    if job.row.status != WaitingForDispatch {
      var k :| 0 <= k < |job.assignments| && job.assignments[k].status.Accepted?
        && job.row.rider == Some(job.assignments[k].rider);
      assert DeliveryProtocol.IsOpen(job.assignments[i]) && DeliveryProtocol.IsOpen(job.assignments[k]);
    }
  }

  /** Back to the queue before any cash was taken. */
  lemma Requeued(job: Job, assignments: seq<Assignment>)
    requires JobInv(job) && job.row.status == RiderAssigned
    requires DispatchInv(Advance(job.row, WaitingForDispatch, None), assignments)
    requires AssignmentsGrow(job.assignments, assignments) && |assignments| == |job.assignments|
    ensures Keeps(job, Ok(Saved(job.(row := Advance(job.row, WaitingForDispatch, None), assignments := assignments),
                                Done)))
  {
    StepRow(job.row, WaitingForDispatch);
    IdleKeeps(job.row, Advance(job.row, WaitingForDispatch, None), job.decisions);
  }

  lemma RejectedKeeps(job: Job, i: nat)
    requires JobInv(job) && i < |job.assignments|
    ensures Keeps(job, RejectedJob(job, i))
    ensures RejectedJob(job, i).Ok? && job.assignments[i].status.Accepted? ==>
      job.row.status == RiderAssigned && job.row.rider == Some(job.assignments[i].rider)
  {
    if RejectedJob(job, i).Ok? {
      RejectedDispatch(job, i);
      if job.assignments[i].status.Accepted? {
        Requeued(job, SetAssignment(job.assignments, i, Rejected));
      }
    }
  }

  lemma ChecklistKeeps(job: Job, verified: bool)
    requires JobInv(job)
    ensures Keeps(job, SetChecklist(job, verified))
  {
  }

  lemma IssueChallengeKeeps(job: Job, actor: Actor, kind: Pickup.PickupMethod, code: string, parcels: int, now: int)
    requires JobInv(job)
    ensures Keeps(job, IssueChallenge(job, actor, kind, code, parcels, now))
  {
    if IssueChallenge(job, actor, kind, code, parcels, now).Ok? {
      Pickup.IssueKeeps(job.pickup, kind, code, actor.user, parcels, now);
    }
  }

  /** A first proof moves the job to PICKUP_VERIFIED, with or without a challenge behind it. */
  lemma HandedOver(job: Job, pickup: Pickup.PickupFile)
    requires JobInv(job) && job.row.status == AtStore && job.pickup.proof.None?
    requires Pickup.PickupInv(pickup) && Pickup.PickupGrows(job.pickup, pickup) && pickup.proof.Some?
    ensures Keeps(job, Ok(Saved(job.(row := Advance(job.row, PickupVerified, None), pickup := pickup), Done)))
  {
    StepRow(job.row, PickupVerified);
    StepJob(job, PickupVerified);
    IdleKeeps(job.row, Advance(job.row, PickupVerified, None), job.decisions);
  }

  /** Pickup attempts that do not hand the parcel over leave the row alone. */
  lemma NotHandedOver(job: Job, pickup: Pickup.PickupFile, reply: Reply)
    requires JobInv(job)
    requires Pickup.PickupInv(pickup) && Pickup.PickupGrows(job.pickup, pickup) && pickup.proof == job.pickup.proof
    ensures Keeps(job, Ok(Saved(job.(pickup := pickup), reply)))
  {
  }

  lemma VerifyChallengeKeeps(job: Job, actor: Actor, kind: Pickup.PickupMethod, code: string, parcels: int, now: int)
    requires JobInv(job)
    ensures Keeps(job, VerifyChallenge(job, actor, kind, code, parcels, now))
  {
    var result := VerifyChallenge(job, actor, kind, code, parcels, now);
    if result.Ok? {
      var i := Pickup.LatestPending(job.pickup.challenges, kind).value;
      var after := result.value.job.pickup;
      if job.pickup.challenges[i].expiresAt <= now {
        Pickup.CloseKeeps(job.pickup, i, Pickup.Expired);
        NotHandedOver(job, after, result.value.reply);
      } else if job.pickup.challenges[i].code != code {
        Pickup.CountAttemptKeeps(job.pickup, i);
        NotHandedOver(job, after, result.value.reply);
      } else if job.pickup.proof.Some? {
        Pickup.CloseKeeps(job.pickup, i, Pickup.Used);
        NotHandedOver(job, after, result.value.reply);
      } else {
        Pickup.ProveKeeps(job.pickup, i, after.proof.value);
        HandedOver(job, after);
      }
    }
  }

  lemma ConfirmPickupKeeps(job: Job, actor: Actor, parcels: int)
    requires JobInv(job)
    ensures Keeps(job, ConfirmPickup(job, actor, parcels))
  {
    var result := ConfirmPickup(job, actor, parcels);
    if result.Ok? && job.pickup.proof.None? {
      HandedOver(job, result.value.job.pickup);
    }
  }

  lemma IssueOtpKeeps(job: Job, code: string, now: int)
    requires JobInv(job) && job.row.status == AtCustomer
    ensures Keeps(job, Ok(Saved(job.(otp := DeliveryOtp.Issue(job.otp, code, now)), Done)))
  {
    DeliveryOtp.IssueKeeps(job.otp, code, now);
  }

  /** Passing the gate: the only verified code, the proof that points at it, and the cash. */
  lemma PassedGate(job: Job, otp: DeliveryOtp.OtpFile, proof: DeliveryProof)
    requires JobInv(job) && job.row.status == AtCustomer && CashIsIn(job)
    requires DeliveryOtp.OtpInv(otp) && DeliveryOtp.OtpGrows(job.otp, otp)
    requires |otp.verified| == 1 && proof.otpRow == 0 && Some(proof.rider) == job.row.rider
    ensures Keeps(job, Ok(Saved(job.(row := Advance(job.row, Delivered, None), otp := otp, proof := Some(proof)),
                                Done)))
  {
    StepRow(job.row, Delivered);
    StepJob(job, Delivered);
    IdleKeeps(job.row, Advance(job.row, Delivered, None), job.decisions);
  }

  lemma CompleteKeeps(job: Job, actor: Actor, confirmed: bool, entered: Option<string>, now: int)
    requires JobInv(job)
    ensures Keeps(job, CompleteDelivery(job, actor, confirmed, entered, now))
  {
    var result := CompleteDelivery(job, actor, confirmed, entered, now);
    if result.Ok? && job.row.status == AtCustomer {
      DeliveryOtp.VerifyKeeps(job.otp, entered.value, now);
      if result.value.job.row != job.row {
        PassedGate(job, result.value.job.otp, result.value.job.proof.value);
      }
    }
  }

  lemma FailedGrows(job: Job, after: Job)
    requires job.row.log <= after.row.log && !IsFinal(job.row.status)
    requires DecisionsGrow(job.decisions, after.decisions)
    requires after == job.(row := after.row, decisions := after.decisions)
    ensures JobGrows(job, after)
  {
  }

  /** Failing opens one decision and leaves the parcel and the cash where they are. */
  lemma Failed(job: Job, reason: FailureReason)
    requires JobInv(job) && IsFailable(job.row.status)
    ensures Keeps(job, Ok(Saved(job.(
      row := Advance(job.row, DeliveryFailed, None),
      decisions := job.decisions + [Decide(reason)]), Done)))
  {
    var after := job.(row := Advance(job.row, DeliveryFailed, None), decisions := job.decisions + [Decide(reason)]);
    StepRow(job.row, DeliveryFailed);
    StepJob(job, DeliveryFailed);
    StepFiles(job, after);
    DecideKeeps(job.row, after.row, job.decisions, reason);
    FailedGrows(job, after);
  }

  lemma RecordFailureKeeps(job: Job, actor: Actor, reason: FailureReason)
    requires JobInv(job)
    ensures Keeps(job, RecordFailure(job, actor, reason))
  {
    if RecordFailure(job, actor, reason).Ok? {
      Failed(job, reason);
    }
  }

  lemma {:induction false} ReassignHandsBack(assignments: seq<Assignment>)
    requires forall i, k :: 0 <= i < |assignments| && 0 <= k < |assignments| ==>
      DeliveryProtocol.IsOpen(assignments[i]) && DeliveryProtocol.IsOpen(assignments[k]) ==> i == k
    ensures forall i :: 0 <= i < |assignments| ==>
      Reassign(assignments)[i] ==
      if assignments[i].status.Accepted? then assignments[i].(status := Reassigned) else assignments[i]
  {
    if assignments != [] {
      var last := |assignments| - 1;
      if !assignments[last].status.Accepted? {
        ReassignHandsBack(assignments[..last]);
      } else {
        assert DeliveryProtocol.IsOpen(assignments[last]);
      }
    }
  }

  /** Leaving a failure by an action: everything but the decision, which is closed separately. */
  lemma LeaveFailure(job: Job, after: Job, next: JobStatus, closed: Decision)
    requires JobInv(job) && job.row.status.DeliveryFailed? && CanMove(DeliveryFailed, next)
    requires next == WaitingForDispatch || next == Cancelled ==> !HoldsCash(job)
    requires after == job.(
      row := Advance(job.row, next, None),
      assignments := after.assignments,
      payment := after.payment,
      decisions := job.decisions[|job.decisions| - 1 := closed])
    requires after.assignments == if next == WaitingForDispatch then Reassign(job.assignments) else job.assignments
    requires after.payment == job.payment || (!IsCod(job.payment) && !IsCod(after.payment))
    requires !FailureDecision.IsOpen(closed) && Traceable(closed)
    ensures Keeps(job, Ok(Saved(after, Done)))
  {
    StepRow(job.row, next);
    OpenIsLast(job.row, job.decisions);
    FailureDecision.CloseKeeps(job.row, after.row, job.decisions, closed);
    if next == WaitingForDispatch {
      ReassignHandsBack(job.assignments);
    } else {
      StepJob(job, next);
    }
  }

  /** Every action but escalation takes the job out of the failed status. */
  lemma CarryOutLeaves(job: Job, action: Action)
    requires job.row.status.DeliveryFailed? && CarryOut(job, action).Ok?
    ensures var after := CarryOut(job, action).value;
      if action.EscalateToAdmin? then after == job
      else
        && CanMove(DeliveryFailed, after.row.status)
        && (after.row.status == WaitingForDispatch || after.row.status == Cancelled ==> !HoldsCash(job))
        && (after.payment == job.payment || (!IsCod(job.payment) && !IsCod(after.payment)))
        && after == job.(
          row := Advance(job.row, after.row.status, None),
          assignments := if after.row.status == WaitingForDispatch then Reassign(job.assignments) else job.assignments,
          payment := after.payment)
  {
  }

  lemma EscalateKeeps(job: Job, decision: Decision)
    requires JobInv(job) && job.row.status.DeliveryFailed? && FailureDecision.IsOpen(decision) && Traceable(decision)
    ensures job.decisions != []
    ensures Keeps(job, Ok(Saved(job.(decisions := job.decisions[|job.decisions| - 1 := decision]), Done)))
  {
    FailureDecision.CloseKeeps(job.row, job.row, job.decisions, decision);
  }

  lemma ResolveKeeps(job: Job, requested: Option<Action>, hasOverrideReason: bool)
    requires JobInv(job)
    ensures Keeps(job, ResolveFailure(job, requested, hasOverrideReason))
  {
    var result := ResolveFailure(job, requested, hasOverrideReason);
    if result.Ok? {
      OpenIsLast(job.row, job.decisions);
      var open := LatestOpen(job.decisions).value;
      var action := if requested.Some? then requested.value else job.decisions[open].decided;
      CarryOutLeaves(job, action);
      var closed := ApplyAction(job.decisions[open], action);
      if action.EscalateToAdmin? {
        EscalateKeeps(job, closed);
      } else {
        LeaveFailure(job, result.value.job, result.value.job.row.status, closed);
      }
    }
  }

  lemma StartReturnKeeps(job: Job, actor: Actor)
    requires JobInv(job)
    ensures Keeps(job, StartReturn(job, actor))
  {
    var result := StartReturn(job, actor);
    if result.Ok? {
      OpenIsLast(job.row, job.decisions);
      var open := LatestOpen(job.decisions).value;
      LeaveFailure(job, result.value.job, ReturningToStore, result.value.job.decisions[open]);
    }
  }

  lemma ConfirmReturnKeeps(job: Job, actor: Actor)
    requires JobInv(job)
    ensures Keeps(job, ConfirmReturn(job, actor))
  {
    if ConfirmReturn(job, actor).Ok? {
      MoveKeeps(job, ReturnedToStore);
    }
  }

  lemma CollectKeepsJob(job: Job, actor: Actor, amount: int)
    requires JobInv(job)
    ensures Keeps(job, CollectCod(job, actor, amount))
  {
    if CollectCod(job, actor, amount).Ok? {
      CollectKeeps(job.ledger.value, job.row.rider);
    }
  }

  lemma SettleKeepsJob(job: Job, actor: Actor, request: DepositRequest)
    requires JobInv(job) && 1 <= request.amount
    ensures Keeps(job, SettleCod(job, actor, request))
  {
    if SettleCod(job, actor, request).Ok? {
      DepositKeeps(job.ledger.value, request);
    }
  }

  lemma PackedJobKeeps(storeOwner: UserId, payment: Option<Payment>)
    requires EnsureLedger(PackedJob(storeOwner, payment)).Ok?
    ensures JobInv(EnsureLedger(PackedJob(storeOwner, payment)).value)
  {
    if IsCod(payment) {
      OpenKeeps(None, payment.value.amount);
    }
  }

  lemma AcceptedKeeps(job: Job, i: nat)
    requires JobInv(job) && i < |job.assignments| && job.assignments[i].status.Offered?
    requires AcceptedJob(job, i).Ok?
    ensures var after := AcceptedJob(job, i).value;
      && JobInv(after)
      && JobGrows(job, after)
      && job.row.status == WaitingForDispatch
      && Carrier(after.row) == Some(job.assignments[i].rider)
      && |after.assignments| == |job.assignments|
  {
    var rider := job.assignments[i].rider;
    var after := AcceptedJob(job, i).value;
    AdvanceKeepsRowInv(job.row, RiderAssigned, Some(rider));
    AdvanceCounts(job.row, RiderAssigned, Some(rider), PickupVerified);
    AdvanceCounts(job.row, RiderAssigned, Some(rider), DeliveryFailed);
    IdleKeeps(job.row, after.row, job.decisions);
    assert after.assignments[i].status.Accepted?;
  }

  lemma OfferedKeeps(job: Job, rider: RiderId, now: int, until: int)
    requires JobInv(job) && !HasOpen(ExpireOverdue(job.assignments, now))
    requires job.row.status == WaitingForDispatch
    ensures var after := job.(assignments := ExpireOverdue(job.assignments, now) + [Assignment(rider, Offered, until)]);
      JobInv(after) && JobGrows(job, after)
  {
  }

  // ------------------------------------------------------------- all jobs at once

  lemma CarrierAfterStep(before: JobRow, after: JobRow)
    requires RowInv(before) && RowStep(before, after)
    ensures after == before || (after.version != before.version && IsActive(before.status) && before.rider.Some?)
    ensures Carrier(after) == if after != before && Releases(after.status) then None else Carrier(before)
  {
  }

  lemma ReleaseKeepsRiders(carriers: Carriers, riders: map<RiderId, RiderStatus>, id: JobId, rider: RiderId)
    requires RidersInv(carriers, riders) && id in carriers && carriers[id] == Some(rider)
    ensures RidersInv(carriers[id := None], if rider in riders then riders[rider := RiderStatus.Online] else riders)
  {
    var after := carriers[id := None];
    forall other | other in riders
      ensures KeptBusy(after, other) <==> other != rider && KeptBusy(carriers, other)
    {
      if KeptBusy(carriers, other) {
        var job :| job in carriers && carriers[job] == Some(other);
        assert other != rider ==> after[job] == Some(other);
      }
      if KeptBusy(after, other) {
        var job :| job in after && after[job] == Some(other);
        assert carriers[job] == Some(other);
      }
    }
  }

  lemma AcquireKeepsRiders(carriers: Carriers, riders: map<RiderId, RiderStatus>, id: JobId, rider: RiderId)
    requires RidersInv(carriers, riders) && id in carriers && carriers[id].None?
    requires !KeptBusy(carriers, rider)
    ensures RidersInv(carriers[id := Some(rider)], riders[rider := Busy])
  {
    var after := carriers[id := Some(rider)];
    assert after[id] == Some(rider);
    forall other | other in riders && other != rider
      ensures KeptBusy(after, other) <==> KeptBusy(carriers, other)
    {
      if KeptBusy(carriers, other) {
        var job :| job in carriers && carriers[job] == Some(other);
        assert after[job] == Some(other);
      }
    }
  }

  /** Saving one job that took a step keeps riders exclusive and their BUSY marks exact. */
  lemma SaveKeepsRiders(db: Db, id: JobId, job: Job)
    requires RidersInv(CarriersOf(db.jobs), db.riders) && id in db.jobs
    requires RowInv(db.jobs[id].row) && RowStep(db.jobs[id].row, job.row)
    ensures RidersInv(CarriersOf(db.jobs[id := job]), ReleaseRider(db.riders, db.jobs[id].row, job.row))
  {
    var before := db.jobs[id].row;
    CarrierAfterStep(before, job.row);
    assert CarriersOf(db.jobs[id := job]) == CarriersOf(db.jobs)[id := Carrier(job.row)];
    if job.row != before && Releases(job.row.status) {
      ReleaseKeepsRiders(CarriersOf(db.jobs), db.riders, id, before.rider.value);
    } else {
      assert CarriersOf(db.jobs)[id := Carrier(before)] == CarriersOf(db.jobs);
    }
  }

  // ------------------------------------------------------------------ every run

  ghost predicate JobsGrow(before: map<JobId, Job>, after: map<JobId, Job>) {
    && before.Keys <= after.Keys
    && (forall id {:trigger At(before, id)} :: At(before, id) ==> id in after && JobGrows(before[id], after[id]))
  }

  /** A request's outcome is safe: the invariant holds after it and no history is lost. */
  ghost predicate Safe(db: Db, outcome: Outcome) {
    outcome.Committed? ==> DbInv(outcome.db) && JobsGrow(db.jobs, outcome.db.jobs)
  }

  /** Replacing one job by one that is good and grew from it. */
  lemma ReplaceJob(jobs: map<JobId, Job>, id: JobId, job: Job)
    requires JobsInv(jobs) && JobInv(job)
    requires id in jobs ==> JobGrows(jobs[id], job)
    ensures JobsInv(jobs[id := job]) && JobsGrow(jobs, jobs[id := job])
  {
    var after := jobs[id := job];
    forall other | At(after, other) ensures JobInv(after[other]) {
      assert other != id ==> At(jobs, other);
    }
  }

  lemma SameJobs(jobs: map<JobId, Job>)
    ensures JobsGrow(jobs, jobs)
  {
  }

  lemma SaveSafe(db: Db, id: JobId, result: Result<Saved>, used: Option<KeyUse>)
    requires RidersInv(CarriersOf(db.jobs), db.riders) && id in db.jobs
    requires result.Ok? ==>
      && RowInv(db.jobs[id].row) && RowStep(db.jobs[id].row, result.value.job.row)
      && JobsInv(db.jobs[id := result.value.job]) && JobsGrow(db.jobs, db.jobs[id := result.value.job])
    ensures Safe(db, Save(db, id, result, used))
  {
    if result.Ok? {
      SaveKeepsRiders(db, id, result.value.job);
    }
  }

  // ------------------------------------------------------------------- creation

  lemma NewCarrierIdle(db: Db, id: JobId, job: Job)
    requires RidersInv(CarriersOf(db.jobs), db.riders)
    requires id !in db.jobs && Carrier(job.row).None?
    ensures RidersInv(CarriersOf(db.jobs[id := job]), db.riders)
  {
    var before, after := CarriersOf(db.jobs), CarriersOf(db.jobs[id := job]);
    assert after == before[id := None];
    forall rider | rider in db.riders ensures KeptBusy(after, rider) <==> KeptBusy(before, rider) {
      if KeptBusy(before, rider) {
        var other :| other in before && before[other] == Some(rider);
        assert after[other] == Some(rider);
      }
    }
  }

  lemma CreatedJobs(jobs: map<JobId, Job>, id: JobId, storeOwner: UserId, payment: Option<Payment>)
    requires JobsInv(jobs)
    requires var base := if id in jobs then jobs[id] else PackedJob(storeOwner, payment); EnsureLedger(base).Ok?
    ensures var base := if id in jobs then jobs[id] else PackedJob(storeOwner, payment);
      var after := jobs[id := EnsureLedger(base).value];
      && JobsInv(after) && JobsGrow(jobs, after)
      && (id in jobs ==> after == jobs)
  {
    if id in jobs {
      assert At(jobs, id);
      assert jobs[id := EnsureLedger(jobs[id]).value] == jobs;
      SameJobs(jobs);
    } else {
      PackedJobKeeps(storeOwner, payment);
      ReplaceJob(jobs, id, EnsureLedger(PackedJob(storeOwner, payment)).value);
    }
  }

  lemma CreateSafe(db: Db, id: JobId, actor: Actor, storeOwner: UserId, payment: Option<Payment>)
    requires DbInv(db)
    ensures Safe(db, CreateJob(db, id, actor, storeOwner, payment))
  {
    var outcome := CreateJob(db, id, actor, storeOwner, payment);
    if outcome.Committed? {
      CreatedJobs(db.jobs, id, storeOwner, payment);
      if id !in db.jobs {
        NewCarrierIdle(db, id, outcome.db.jobs[id]);
      }
    }
  }

  // ------------------------------------------------------------------- dispatch

  lemma OfferedJobs(jobs: map<JobId, Job>, id: JobId, rider: RiderId, now: int, until: int)
    requires JobsInv(jobs) && id in jobs
    requires jobs[id].row.status == WaitingForDispatch && !HasOpen(ExpireOverdue(jobs[id].assignments, now))
    ensures var after := jobs[id := jobs[id].(
        assignments := ExpireOverdue(jobs[id].assignments, now) + [Assignment(rider, Offered, until)])];
      JobsInv(after) && JobsGrow(jobs, after)
  {
    assert At(jobs, id);
    OfferedKeeps(jobs[id], rider, now, until);
    ReplaceJob(jobs, id, jobs[id].(
      assignments := ExpireOverdue(jobs[id].assignments, now) + [Assignment(rider, Offered, until)]));
  }

  lemma SameCarriers(jobs: map<JobId, Job>, id: JobId, job: Job)
    requires id in jobs && job.row == jobs[id].row
    ensures CarriersOf(jobs[id := job]) == CarriersOf(jobs)
  {
  }

  lemma OfferSafe(db: Db, id: JobId, rider: RiderId, actor: Actor, seconds: int, now: int)
    requires DbInv(db)
    ensures Safe(db, Offer(db, id, rider, actor, seconds, now))
  {
    var outcome := Offer(db, id, rider, actor, seconds, now);
    if outcome.Committed? {
      var until := now + OfferSeconds(seconds) * 1000;
      var offered := db.jobs[id].(
        assignments := ExpireOverdue(db.jobs[id].assignments, now) + [Assignment(rider, Offered, until)]);
      assert outcome == Committed(db.(jobs := db.jobs[id := offered]), Done);
      OfferedJobs(db.jobs, id, rider, now, until);
      SameCarriers(db.jobs, id, offered);
    }
  }

  lemma AcceptedJobs(jobs: map<JobId, Job>, id: JobId, i: nat)
    requires JobsInv(jobs) && id in jobs && i < |jobs[id].assignments|
    requires jobs[id].assignments[i].status.Offered? && AcceptedJob(jobs[id], i).Ok?
    ensures var after := AcceptedJob(jobs[id], i).value;
      && JobsInv(jobs[id := after]) && JobsGrow(jobs, jobs[id := after])
      && Carrier(jobs[id].row) == None
      && Carrier(after.row) == Some(jobs[id].assignments[i].rider)
  {
    assert At(jobs, id);
    AcceptedKeeps(jobs[id], i);
    ReplaceJob(jobs, id, AcceptedJob(jobs[id], i).value);
  }

  /** Accepting is safe because no other job keeps the rider busy, which the guard checks. */
  lemma AcceptSafe(db: Db, id: JobId, i: nat, rider: RiderId, now: int)
    requires DbInv(db)
    ensures Safe(db, Accept(db, id, i, rider, now))
  {
    var outcome := Accept(db, id, i, rider, now);
    if outcome.Committed? {
      AcceptedJobs(db.jobs, id, i);
      var carriers := CarriersOf(db.jobs);
      forall other | other in carriers ensures carriers[other] != Some(rider) {
        assert other == id || !IsCarrying(db.jobs[other].row, rider);
      }
      AcquireKeepsRiders(carriers, db.riders, id, rider);
      assert CarriersOf(outcome.db.jobs) == carriers[id := Some(rider)];
    }
  }

  lemma RejectedJobs(jobs: map<JobId, Job>, id: JobId, i: nat)
    requires JobsInv(jobs) && id in jobs && i < |jobs[id].assignments|
    requires RejectedJob(jobs[id], i).Ok?
    ensures var after := RejectedJob(jobs[id], i).value.job;
      && JobsInv(jobs[id := after]) && JobsGrow(jobs, jobs[id := after])
      && RowStep(jobs[id].row, after.row)
      && (jobs[id].assignments[i].status.Accepted? ==>
            Carrier(jobs[id].row) == Some(jobs[id].assignments[i].rider) && Carrier(after.row) == None)
  {
    assert At(jobs, id);
    RejectedKeeps(jobs[id], i);
    ReplaceJob(jobs, id, RejectedJob(jobs[id], i).value.job);
  }

  lemma FreeRider(before: Carriers, after: Carriers, riders: map<RiderId, RiderStatus>, id: JobId, rider: RiderId)
    requires RidersInv(before, map[]) && id in before && before[id] == Some(rider)
    requires RidersInv(after, riders) && after == before[id := None]
    ensures RidersInv(after, riders[rider := RiderStatus.Online])
  {
  }

  /** Marking the rejecting rider online again adds nothing to the release it got. */
  lemma RejectedRiders(db: Db, id: JobId, job: Job, rider: RiderId)
    requires RidersInv(CarriersOf(db.jobs), db.riders) && id in db.jobs
    requires RowInv(db.jobs[id].row) && RowStep(db.jobs[id].row, job.row)
    requires Carrier(db.jobs[id].row) == Some(rider) && Carrier(job.row) == None
    ensures RidersInv(CarriersOf(db.jobs[id := job]),
                      ReleaseRider(db.riders, db.jobs[id].row, job.row)[rider := RiderStatus.Online])
  {
    SaveKeepsRiders(db, id, job);
    assert CarriersOf(db.jobs[id := job]) == CarriersOf(db.jobs)[id := None];
    FreeRider(CarriersOf(db.jobs), CarriersOf(db.jobs[id := job]),
              ReleaseRider(db.riders, db.jobs[id].row, job.row), id, rider);
  }

  lemma RejectSafe(db: Db, id: JobId, i: nat, rider: RiderId)
    requires DbInv(db)
    ensures Safe(db, Reject(db, id, i, rider))
  {
    var outcome := Reject(db, id, i, rider);
    if outcome.Committed? {
      assert At(db.jobs, id);
      RejectedJobs(db.jobs, id, i);
      var job := RejectedJob(db.jobs[id], i).value.job;
      if db.jobs[id].assignments[i].status.Accepted? {
        RejectedRiders(db, id, job, rider);
      } else {
        SaveKeepsRiders(db, id, job);
      }
    }
  }

  // ------------------------------------------------------------ requests on one job

  lemma UpdatedJobs(jobs: map<JobId, Job>, id: JobId, result: Result<Saved>)
    requires JobsInv(jobs) && id in jobs && result.Ok?
    requires Keeps(jobs[id], result)
    ensures JobsInv(jobs[id := result.value.job]) && JobsGrow(jobs, jobs[id := result.value.job])
  {
    ReplaceJob(jobs, id, result.value.job);
  }

  lemma IssuedOtpJobs(jobs: map<JobId, Job>, id: JobId, code: string, now: int)
    requires JobsInv(jobs) && id in jobs && jobs[id].row.status == AtCustomer
    ensures var after := jobs[id := jobs[id].(otp := DeliveryOtp.Issue(jobs[id].otp, code, now))];
      JobsInv(after) && JobsGrow(jobs, after)
  {
    assert At(jobs, id);
    IssueOtpKeeps(jobs[id], code, now);
    UpdatedJobs(jobs, id, Ok(Saved(jobs[id].(otp := DeliveryOtp.Issue(jobs[id].otp, code, now)), Done)));
  }

  lemma IssueOtpSafe(db: Db, id: JobId, actor: Actor, code: string, key: Option<Key>, now: int)
    requires DbInv(db)
    ensures Safe(db, IssueOtp(db, id, actor, code, key, now))
  {
    SameJobs(db.jobs);
    if id in db.jobs && db.jobs[id].row.status == AtCustomer {
      assert At(db.jobs, id);
      IssuedOtpJobs(db.jobs, id, code, now);
      SaveSafe(db, id, Ok(Saved(db.jobs[id].(otp := DeliveryOtp.Issue(db.jobs[id].otp, code, now)), Done)),
               Use(key, id, OtpIssued));
    }
  }

  lemma HandoffUpdateKeeps(job: Job, request: Request)
    requires JobInv(job)
    requires request.SweepJob? || request.TravelLeg? || request.Checklist? || request.ChallengePickup?
      || request.VerifyPickup? || request.ConfirmHandoff?
    ensures Keeps(job, Update(request, job))
  {
    match request
    case SweepJob(_, now) => SweepKeeps(job, now);
    case TravelLeg(_, leg, rider) => TravelKeeps(job, leg, rider);
    case Checklist(_, verified) => ChecklistKeeps(job, verified);
    case ChallengePickup(_, actor, kind, code, parcels, now) =>
      IssueChallengeKeeps(job, actor, kind, code, parcels, now);
    case VerifyPickup(_, actor, kind, code, parcels, now) => VerifyChallengeKeeps(job, actor, kind, code, parcels, now);
    case ConfirmHandoff(_, actor, parcels) => ConfirmPickupKeeps(job, actor, parcels);
  }

  lemma DoorUpdateKeeps(job: Job, request: Request)
    requires JobInv(job) && (request.Complete? || request.Fail? || request.Resolve?)
    ensures Keeps(job, Update(request, job))
  {
    match request
    case Complete(_, actor, confirmed, entered, now) => CompleteKeeps(job, actor, confirmed, entered, now);
    case Fail(_, actor, reason, _) => RecordFailureKeeps(job, actor, reason);
    case Resolve(_, _, action, hasOverrideReason, _) => ResolveKeeps(job, action, hasOverrideReason);
  }

  lemma ReturnUpdateKeeps(job: Job, request: Request)
    requires JobInv(job)
    requires request.BeginReturn? || request.ReceiveReturn? || request.CollectCash?
      || (request.SettleCash? && 1 <= request.deposit.amount)
    ensures Keeps(job, Update(request, job))
  {
    match request
    case BeginReturn(_, actor, _) => StartReturnKeeps(job, actor);
    case ReceiveReturn(_, actor, _) => ConfirmReturnKeeps(job, actor);
    case CollectCash(_, actor, amount, _) => CollectKeepsJob(job, actor, amount);
    case SettleCash(_, actor, deposit, _) => SettleKeepsJob(job, actor, deposit);
  }

  lemma UpdateKeeps(job: Job, request: Request)
    requires JobInv(job)
    requires request.SettleCash? ==> 1 <= request.deposit.amount
    ensures Keeps(job, Update(request, job))
  {
    if request.Complete? || request.Fail? || request.Resolve? {
      DoorUpdateKeeps(job, request);
    } else if request.BeginReturn? || request.ReceiveReturn? || request.CollectCash? || request.SettleCash? {
      ReturnUpdateKeeps(job, request);
    } else if request.SweepJob? || request.TravelLeg? || request.Checklist? || request.ChallengePickup?
      || request.VerifyPickup? || request.ConfirmHandoff?
    {
      HandoffUpdateKeeps(job, request);
    }
  }

  lemma RequestedJobs(jobs: map<JobId, Job>, id: JobId, request: Request)
    requires JobsInv(jobs) && id in jobs && (request.SettleCash? ==> 1 <= request.deposit.amount)
    ensures Update(request, jobs[id]).Ok? ==>
      var after := Update(request, jobs[id]).value.job;
      && JobsInv(jobs[id := after]) && JobsGrow(jobs, jobs[id := after])
      && RowStep(jobs[id].row, after.row)
  {
    assert At(jobs, id);
    UpdateKeeps(jobs[id], request);
    if Update(request, jobs[id]).Ok? {
      UpdatedJobs(jobs, id, Update(request, jobs[id]));
    }
  }

  lemma ConcludeSafe(db: Db, request: Request, result: Result<Saved>)
    requires RidersInv(CarriersOf(db.jobs), db.riders) && request.id in db.jobs
    requires result.Ok? ==>
      && RowInv(db.jobs[request.id].row) && RowStep(db.jobs[request.id].row, result.value.job.row)
      && JobsInv(db.jobs[request.id := result.value.job]) && JobsGrow(db.jobs, db.jobs[request.id := result.value.job])
    ensures Safe(db, Conclude(db, request, result))
  {
    SaveSafe(db, request.id, result, KeyLeft(request));
  }

  lemma HandleOneSafe(db: Db, request: Request)
    requires DbInv(db)
    ensures Safe(db, HandleOne(db, request))
  {
    var outcome := HandleOne(db, request);
    if outcome.RolledBack? {
    } else if outcome == Committed(db, Replayed) {
      SameJobs(db.jobs);
    } else {
      assert At(db.jobs, request.id);
      RequestedJobs(db.jobs, request.id, request);
      ConcludeSafe(db, request, Update(request, db.jobs[request.id]));
    }
  }

  // ------------------------------------------------------------------- every run

  lemma DispatchSafe(db: Db, request: Request)
    requires DbInv(db) && (request.OfferJob? || request.AcceptOffer? || request.RejectOffer?)
    ensures Safe(db, Handle(db, request))
  {
    match request
    case OfferJob(id, rider, actor, seconds, now) => OfferSafe(db, id, rider, actor, seconds, now);
    case AcceptOffer(id, i, rider, now) => AcceptSafe(db, id, i, rider, now);
    case RejectOffer(id, i, rider) => RejectSafe(db, id, i, rider);
  }

  /** Every request keeps the invariant and every history. */
  lemma HandleSafe(db: Db, request: Request)
    requires DbInv(db)
    ensures Safe(db, Handle(db, request))
  {
    if request.OfferJob? || request.AcceptOffer? || request.RejectOffer? {
      DispatchSafe(db, request);
    } else if request.CreateJobFor? {
      CreateSafe(db, request.id, request.actor, request.storeOwner, request.payment);
    } else if request.SendOtp? {
      IssueOtpSafe(db, request.id, request.actor, request.code, request.key, request.now);
    } else {
      HandleOneSafe(db, request);
    }
  }

  lemma NextSafe(db: Db, request: Request)
    requires DbInv(db)
    ensures DbInv(Next(db, request)) && JobsGrow(db.jobs, Next(db, request).jobs)
  {
    HandleSafe(db, request);
    SameJobs(db.jobs);
  }

  lemma InitialSafe(db: Db)
    requires IsInitial(db)
    ensures DbInv(db)
  {
  }

  /** The whole invariant holds at every moment of every run. */
  lemma {:induction false} RunSafe(run: Trace, k: nat)
    requires IsRun(run) && k < |run.states|
    ensures DbInv(run.states[k])
  {
    if k == 0 {
      InitialSafe(run.states[0]);
    } else {
      RunSafe(run, k - 1);
      assert Leads(run, k - 1);
      NextSafe(run.states[k - 1], run.requests[k - 1]);
    }
  }

  lemma GrowsTransitive(a: Job, b: Job, c: Job)
    requires JobGrows(a, b) && JobGrows(b, c)
    ensures JobGrows(a, c)
  {
    PartsGrowTransitive(a, b, c);
  }

  lemma PartsGrowTransitive(a: Job, b: Job, c: Job)
    requires JobGrows(a, b) && JobGrows(b, c)
    ensures AssignmentsGrow(a.assignments, c.assignments)
    ensures Pickup.PickupGrows(a.pickup, c.pickup)
    ensures DeliveryOtp.OtpGrows(a.otp, c.otp)
    ensures DecisionsGrow(a.decisions, c.decisions)
    ensures LedgerGrows(a.ledger, c.ledger)
  {
  }

  lemma JobsGrowTransitive(a: map<JobId, Job>, b: map<JobId, Job>, c: map<JobId, Job>)
    requires JobsGrow(a, b) && JobsGrow(b, c)
    ensures JobsGrow(a, c)
  {
    forall id | At(a, id) ensures id in c && JobGrows(a[id], c[id]) {
      assert At(b, id);
      GrowsTransitive(a[id], b[id], c[id]);
    }
  }

  /** Between any two moments of a run no history is lost. */
  lemma {:induction false} RunGrows(run: Trace, j: nat, k: nat)
    requires IsRun(run) && j <= k < |run.states|
    ensures JobsGrow(run.states[j].jobs, run.states[k].jobs)
  {
    if j == k {
      SameJobs(run.states[j].jobs);
    } else {
      RunGrows(run, j, k - 1);
      RunSafe(run, k - 1);
      assert Leads(run, k - 1);
      NextSafe(run.states[k - 1], run.requests[k - 1]);
      JobsGrowTransitive(run.states[j].jobs, run.states[k - 1].jobs, run.states[k].jobs);
    }
  }
}
