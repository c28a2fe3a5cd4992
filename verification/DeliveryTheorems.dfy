/** What the delivery protocol promises, stated for every run of any requests by anyone. */
module DeliveryTheorems {
  import opened Common
  import opened DeliveryStatus
  import opened Workflow
  import opened Payments
  import opened CodLedger
  import opened FailureDecision
  import opened DeliveryProtocol
  import opened DeliverySafety
  import Pickup
  import DeliveryOtp

  /** A job at some moment of a run. */
  ghost predicate Reachable(run: Trace, t: nat, id: JobId) {
    IsRun(run) && t < |run.states| && id in run.states[t].jobs
  }

  lemma ReachableJob(run: Trace, t: nat, id: JobId)
    requires Reachable(run, t, id)
    ensures JobsInv(run.states[t].jobs) && At(run.states[t].jobs, id)
  {
    RunSafe(run, t);
  }

  // ---------------------------------------------------------------- exclusivity

  /** The i-th assignment is the only accepted one, and the job's rider holds it. */
  ghost predicate OnlyAccepted(job: Job, i: nat) {
    && i < |job.assignments|
    && job.row.rider == Some(job.assignments[i].rider)
    && (forall k :: 0 <= k < |job.assignments| ==> (job.assignments[k].status.Accepted? <==> k == i))
  }

  /**
   * A job waits exactly when it has no rider and nothing accepted; otherwise one accepted assignment names
   * its rider.
   */
  lemma WaitingOrHeld(run: Trace, t: nat, id: JobId)
    requires Reachable(run, t, id)
    ensures var job := run.states[t].jobs[id];
      && (job.row.status == WaitingForDispatch <==> job.row.rider == None)
      && (job.row.status == WaitingForDispatch <==>
            forall k :: 0 <= k < |job.assignments| ==> !job.assignments[k].status.Accepted?)
      && (job.row.status != WaitingForDispatch <==> exists i :: OnlyAccepted(job, i))
  {
    ReachableJob(run, t, id);
    var job := run.states[t].jobs[id];
    if job.row.status != WaitingForDispatch {
      var i :| 0 <= i < |job.assignments| && job.assignments[i].status.Accepted?
        && job.row.rider == Some(job.assignments[i].rider);
      forall k | 0 <= k < |job.assignments| && job.assignments[k].status.Accepted? ensures k == i {
        assert DeliveryProtocol.IsOpen(job.assignments[k]) && DeliveryProtocol.IsOpen(job.assignments[i]);
      }
      assert OnlyAccepted(job, i);
    }
  }

  /** No rider carries two active jobs, and a rider is BUSY exactly while carrying one. */
  lemma RidersExclusive(run: Trace, t: nat)
    requires IsRun(run) && t < |run.states|
    ensures var end := run.states[t];
      && (forall rider: RiderId, a, b ::
            (a in end.jobs && b in end.jobs && IsCarrying(end.jobs[a].row, rider) && IsCarrying(end.jobs[b].row, rider))
            ==> a == b)
      && (forall rider :: rider in end.riders ==> (end.riders[rider].Busy? <==> HasActiveJob(end, rider)))
  {
    RunSafe(run, t);
    var end := run.states[t];
    var carriers := CarriersOf(end.jobs);
    forall rider: RiderId, a, b | a in end.jobs && b in end.jobs
      && IsCarrying(end.jobs[a].row, rider) && IsCarrying(end.jobs[b].row, rider)
      ensures a == b
    {
      assert carriers[a] == Some(rider) && carriers[b] == Some(rider);
    }
    forall rider | rider in end.riders
      ensures KeptBusy(carriers, rider) <==> HasActiveJob(end, rider)
    {
      if HasActiveJob(end, rider) {
        var id :| id in end.jobs && IsCarrying(end.jobs[id].row, rider);
        assert carriers[id] == Some(rider);
      }
      if KeptBusy(carriers, rider) {
        var id :| id in carriers && carriers[id] == Some(rider);
        assert IsCarrying(end.jobs[id].row, rider);
      }
    }
  }

  /** A job with an open offer is waiting. */
  lemma OfferedMeansWaiting(job: Job, i: nat)
    requires JobInv(job) && i < |job.assignments| && job.assignments[i].status.Offered?
    ensures job.row.status == WaitingForDispatch
  {
    assert DeliveryProtocol.IsOpen(job.assignments[i]);
    assert forall k :: 0 <= k < |job.assignments| && job.assignments[k].status.Accepted? ==>
      DeliveryProtocol.IsOpen(job.assignments[k]);
  }

  predicate MayAccept(db: Db, id: JobId, i: nat, rider: RiderId, now: int) {
    && id in db.jobs && i < |db.jobs[id].assignments|
    && db.jobs[id].assignments[i].rider == rider
    && db.jobs[id].assignments[i].status.Offered?
    && now < db.jobs[id].assignments[i].expiresAt
    && !HasOtherActiveJob(db, rider, id)
  }

  lemma AcceptCommits(db: Db, id: JobId, i: nat, rider: RiderId, now: int)
    requires id in db.jobs ==> JobInv(db.jobs[id])
    ensures Accept(db, id, i, rider, now).Committed? <==> MayAccept(db, id, i, rider, now)
  {
    if MayAccept(db, id, i, rider, now) {
      OfferedMeansWaiting(db.jobs[id], i);
    }
  }

  /**
   * A rider can accept exactly its own offer, before it expires, while it carries nothing else: the job
   * itself never objects.
   */
  lemma AcceptsExactlyWhen(run: Trace, t: nat, id: JobId, i: nat, rider: RiderId, now: int)
    requires IsRun(run) && t < |run.states|
    ensures var end := run.states[t];
      Handle(end, AcceptOffer(id, i, rider, now)).Committed? <==> MayAccept(end, id, i, rider, now)
  {
    RunSafe(run, t);
    var end := run.states[t];
    if id in end.jobs {
      assert At(end.jobs, id);
    }
    AcceptCommits(end, id, i, rider, now);
  }

  lemma OfferIsFree(db: Db, id: JobId, rider: RiderId, actor: Actor, seconds: int, now: int)
    requires Offer(db, id, rider, actor, seconds, now).Committed?
    ensures var after := Offer(db, id, rider, actor, seconds, now).db;
      && id in after.jobs && after.jobs[id].assignments != []
      && after.jobs[id].assignments[|after.jobs[id].assignments| - 1]
         == Assignment(rider, Offered, now + OfferSeconds(seconds) * 1000)
      && !HasOtherActiveJob(after, rider, id)
  {
    var after := Offer(db, id, rider, actor, seconds, now).db;
    forall other | other in after.jobs && other != id ensures !IsCarrying(after.jobs[other].row, rider) {
      assert after.jobs[other] == db.jobs[other];
    }
  }

  lemma OfferLastsFrom(db: Db, id: JobId, rider: RiderId, actor: Actor, seconds: int, now: int, later: int)
    requires DbInv(db) && Offer(db, id, rider, actor, seconds, now).Committed?
    ensures var after := Offer(db, id, rider, actor, seconds, now).db;
      && id in after.jobs && after.jobs[id].assignments != []
      && (Accept(after, id, |after.jobs[id].assignments| - 1, rider, later).Committed?
          <==> later < now + OfferSeconds(seconds) * 1000)
  {
    var after := Offer(db, id, rider, actor, seconds, now).db;
    OfferSafe(db, id, rider, actor, seconds, now);
    OfferIsFree(db, id, rider, actor, seconds, now);
    assert At(after.jobs, id);
    AcceptCommits(after, id, |after.jobs[id].assignments| - 1, rider, later);
  }

  /** An offer that was just made can be accepted by its rider for exactly the seconds it was made for. */
  lemma OfferLasts(run: Trace, t: nat, id: JobId, rider: RiderId, actor: Actor, seconds: int, now: int, later: int)
    requires IsRun(run) && t < |run.states| && Offer(run.states[t], id, rider, actor, seconds, now).Committed?
    ensures var after := Offer(run.states[t], id, rider, actor, seconds, now).db;
      && id in after.jobs && after.jobs[id].assignments != []
      && (Accept(after, id, |after.jobs[id].assignments| - 1, rider, later).Committed?
          <==> later < now + OfferSeconds(seconds) * 1000)
  {
    RunSafe(run, t);
    OfferLastsFrom(run.states[t], id, rider, actor, seconds, now, later);
  }

  // ----------------------------------------------------------------------- cash

  /** Cash stays with the rider that collected it until it is deposited. */
  lemma CashStaysWithItsRider(run: Trace, t: nat, id: JobId)
    requires Reachable(run, t, id)
    ensures var job := run.states[t].jobs[id];
      HoldsCash(job) ==>
        && job.row.rider.Some?
        && job.ledger.value.rider == job.row.rider
        && job.row.status !in {WaitingForDispatch, RiderAssigned, EnRouteToStore, AtStore, PickupVerified, Cancelled}
  {
    ReachableJob(run, t, id);
  }

  /** Every paisa of a cash job is still owed, held or deposited, and the entries prove it. */
  lemma CashIsConserved(run: Trace, t: nat, id: JobId)
    requires Reachable(run, t, id)
    ensures var job := run.states[t].jobs[id];
      && (IsCod(job.payment) <==> job.ledger.Some?)
      && (job.ledger.Some? ==>
            var ledger := job.ledger.value;
            && ledger.expected == job.payment.value.amount
            && ledger.holding + ledger.deposited == ledger.collected
            && (ledger.collected == 0 || ledger.collected == ledger.expected)
            && (ledger.status.Settled? <==> ledger.deposited == ledger.expected)
            && (ledger.status.VarianceReview? ==>
                  ledger.variance == ledger.expected - ledger.deposited == ledger.holding > 0)
            && Replay(ledger.entries) == Cash(ledger.expected, ledger.collected, ledger.holding, ledger.deposited)
            && Audited(ledger.entries)
            && Deposits(ledger.entries) <= ledger.expected)
  {
    ReachableJob(run, t, id);
    var job := run.states[t].jobs[id];
    if job.ledger.Some? {
      DepositsEnd(job.ledger.value);
    }
  }

  // ----------------------------------------------------------------------- gate

  /** Delivered means: one verified code, whose issue is complete, a proof that points at it, and the cash in. */
  lemma DeliveredGate(run: Trace, t: nat, id: JobId)
    requires Reachable(run, t, id)
    ensures var job := run.states[t].jobs[id];
      && (job.row.status == Delivered <==> job.proof.Some?)
      && (job.row.status == Delivered <==> |job.otp.verified| == 1)
      && (job.row.status == Delivered ==>
            && job.proof.value.otpRow == 0
            && Some(job.proof.value.rider) == job.row.rider
            && job.otp.verified[0] < |job.otp.issues|
            && job.otp.issues[job.otp.verified[0]].status.Completed?
            && (IsCod(job.payment) ==>
                  && job.payment.value.status.Captured?
                  && job.ledger.Some?
                  && job.ledger.value.collected == job.payment.value.amount))
  {
    ReachableJob(run, t, id);
  }

  /** The code an attempt must show: one that is pending and has not expired. */
  ghost predicate IsPendingCode(otp: DeliveryOtp.OtpFile, code: string, now: int) {
    exists i :: 0 <= i < |otp.issues| && otp.issues[i].status.Pending?
      && now < otp.issues[i].expiresAt && otp.issues[i].code == code
  }

  lemma VerifiesExactlyWhen(otp: DeliveryOtp.OtpFile, code: string, now: int)
    requires DeliveryOtp.OtpInv(otp)
    ensures DeliveryOtp.Verify(otp, code, now).verdict.Verified? <==> IsPendingCode(otp, code, now)
  {
    var pending := DeliveryOtp.LatestPending(otp.issues);
    if pending.Some? {
      assert DeliveryOtp.Ladder(otp, pending.value);
    }
  }

  /** The attempt a caller can count on: right person, right code, cash in. */
  lemma CompletesWith(job: Job, actor: Actor, i: nat, now: int)
    requires JobInv(job) && job.row.status == AtCustomer && CarriedBy(job, actor) && CashIsIn(job)
    requires i < |job.otp.issues| && job.otp.issues[i].status.Pending? && now < job.otp.issues[i].expiresAt
    ensures var result := CompleteDelivery(job, actor, true, Some(job.otp.issues[i].code), now);
      result.Ok? && result.value.job.row.status == Delivered
  {
    VerifiesExactlyWhen(job.otp, job.otp.issues[i].code, now);
  }

  /** When a delivery attempt succeeds, said from the caller's side: the guards on attempts and rider never bite. */
  lemma CompletesExactlyWhen(run: Trace, t: nat, id: JobId, actor: Actor, entered: Option<string>, now: int)
    requires Reachable(run, t, id) && run.states[t].jobs[id].row.status == AtCustomer
    ensures var job := run.states[t].jobs[id];
      var result := CompleteDelivery(job, actor, true, entered, now);
      (result.Ok? && result.value.job.row.status == Delivered) <==>
        CarriedBy(job, actor) && entered.Some? && IsPendingCode(job.otp, entered.value, now) && CashIsIn(job)
  {
    ReachableJob(run, t, id);
    var job := run.states[t].jobs[id];
    if entered.Some? {
      VerifiesExactlyWhen(job.otp, entered.value, now);
    }
  }

  /** A delivery attempt with the code that is pending, before its cash is in, changes nothing. */
  lemma MissingCashRefused(job: Job, actor: Actor, i: nat, now: int)
    requires DeliveryOtp.OtpInv(job.otp) && job.row.status == AtCustomer && !CashIsIn(job)
    requires i < |job.otp.issues| && job.otp.issues[i].status.Pending? && now < job.otp.issues[i].expiresAt
    ensures CarriedBy(job, actor) ==>
      CompleteDelivery(job, actor, true, Some(job.otp.issues[i].code), now) == Err(BadRequest)
  {
    assert DeliveryOtp.Ladder(job.otp, i);
  }

  lemma CashThenCode(job: Job, rider: RiderId, i: nat, later: int)
    requires JobInv(job) && job.row.status == AtCustomer && job.row.rider == Some(rider) && !job.collected
    requires job.payment.Some? && job.payment.value.kind.CashOnDelivery? && job.payment.value.status.PendingCod?
    requires i < |job.otp.issues| && job.otp.issues[i].status.Pending? && later < job.otp.issues[i].expiresAt
    ensures var collected := CollectCod(job, Rider(rider), job.payment.value.amount);
      && collected.Ok?
      && var result := CompleteDelivery(collected.value.job, Rider(rider), true, Some(job.otp.issues[i].code), later);
      && result.Ok? && result.value.job.row.status == Delivered
  {
    CollectKeepsJob(job, Rider(rider), job.payment.value.amount);
    CompletesWith(CollectCod(job, Rider(rider), job.payment.value.amount).value.job, Rider(rider), i, later);
  }

  /**
   * Missing cash after a correct code rolls the whole attempt back, so the code is not used up: once
   * the rider collects, the same code delivers.
   */
  lemma MissingCashKeepsCodePending(run: Trace, t: nat, id: JobId, rider: RiderId, i: nat, now: int, later: int)
    requires Reachable(run, t, id)
    requires var job := run.states[t].jobs[id];
      && job.row.status == AtCustomer && job.row.rider == Some(rider) && !CashIsIn(job) && !job.collected
      && job.payment.value.status.PendingCod?
      && i < |job.otp.issues| && job.otp.issues[i].status.Pending?
      && now <= later < job.otp.issues[i].expiresAt
    ensures var job := run.states[t].jobs[id];
      var code := Some(job.otp.issues[i].code);
      var collected := CollectCod(job, Rider(rider), job.payment.value.amount);
      && CompleteDelivery(job, Rider(rider), true, code, now) == Err(BadRequest)
      && collected.Ok?
      && CompleteDelivery(collected.value.job, Rider(rider), true, code, later).Ok?
      && CompleteDelivery(collected.value.job, Rider(rider), true, code, later).value.job.row.status == Delivered
  {
    ReachableJob(run, t, id);
    var job := run.states[t].jobs[id];
    MissingCashRefused(job, Rider(rider), i, now);
    CashThenCode(job, rider, i, later);
  }

  // ---------------------------------------------------------------- code ladders

  /** At most one code is pending; wrong tries on a code are numbered 1, 2, ... up to five, and close it at five. */
  lemma OtpLadder(run: Trace, t: nat, id: JobId, i: nat)
    requires Reachable(run, t, id) && i < |run.states[t].jobs[id].otp.issues|
    ensures var otp := run.states[t].jobs[id].otp;
      var numbers := DeliveryOtp.AttemptsOn(otp.failures, i);
      && |numbers| <= 5
      && (forall k :: 0 <= k < |numbers| ==> numbers[k] == k + 1)
      && (otp.issues[i].status.Pending? ==> |numbers| < 5)
      && (forall k :: 0 <= k < |otp.issues| ==>
            otp.issues[i].status.Pending? && otp.issues[k].status.Pending? ==> k == i)
  {
    ReachableJob(run, t, id);
    assert DeliveryOtp.Ladder(run.states[t].jobs[id].otp, i);
  }

  /** The pickup log, the proof and the challenges agree. */
  lemma PickupAgrees(run: Trace, t: nat, id: JobId)
    requires Reachable(run, t, id)
    ensures var job := run.states[t].jobs[id];
      var challenges := job.pickup.challenges;
      && Entries(job.row.log, PickupVerified) == (if job.pickup.proof.Some? then 1 else 0)
      && (forall i, k ::
            (&& 0 <= i < |challenges| && challenges[i].status.Pending?
             && 0 <= k < |challenges| && challenges[k].status.Pending?)
            ==> i == k)
      && (forall i :: 0 <= i < |challenges| ==>
            && (challenges[i].status.Pending? ==> challenges[i].attempts < 5)
            && (challenges[i].status.Failed? <==> challenges[i].attempts == 5))
      && (job.pickup.proof.Some? && job.pickup.proof.value.challenge.Some? ==>
            var named := job.pickup.proof.value.challenge.value;
            && named < |challenges|
            && challenges[named].status.Used?
            && challenges[named].parcels == job.pickup.proof.value.parcels
            && challenges[named].issuedBy == job.pickup.proof.value.storeUser)
  {
    ReachableJob(run, t, id);
    var challenges := run.states[t].jobs[id].pickup.challenges;
    assert forall i :: 0 <= i < |challenges| ==> Pickup.ChallengeInv(challenges[i]);
  }

  /**
   * Issuing a pickup code and entering it are inverse: the rider at the store gets the parcel exactly by
   * entering that code and that number of parcels within fifteen minutes.
   */
  lemma IssuedPickupCodeHandsOver(run: Trace, t: nat, id: JobId, rider: RiderId, kind: Pickup.PickupMethod,
                                  code: string, parcels: int, now: int, entered: string, declared: int, later: int)
    requires Reachable(run, t, id) && !kind.StoreConfirmedHandoff?
    requires var job := run.states[t].jobs[id];
      && job.row.status == AtStore && job.row.rider == Some(rider)
      && job.pickup.checklistVerified && job.pickup.proof.None?
    ensures var job := run.states[t].jobs[id];
      var issued := IssueChallenge(job, StoreOwner(job.storeOwner), kind, code, parcels, now);
      && issued.Ok?
      && var tried := VerifyChallenge(issued.value.job, Rider(rider), kind, entered, declared, later);
      && ((tried.Ok? && tried.value.job.row.status == PickupVerified)
          <==> entered == code && declared == parcels && later < now + 15 * 60 * 1000)
  {
    var job := run.states[t].jobs[id];
    Pickup.IssuedIsFound(job.pickup, kind, code, job.storeOwner, parcels, now, kind);
  }

  /**
   * A parcel cannot be handed over twice: at the store, confirming the handoff reaches
   * PICKUP_VERIFIED if and only if the job has no proof from an earlier rider.
   */
  lemma HandsOverOnlyOnce(run: Trace, t: nat, id: JobId, parcels: int)
    requires Reachable(run, t, id)
    requires var job := run.states[t].jobs[id]; job.row.status == AtStore && job.pickup.checklistVerified
    ensures var job := run.states[t].jobs[id];
      var result := ConfirmPickup(job, StoreOwner(job.storeOwner), parcels);
      result.Ok? && (result.value.job.row.status == PickupVerified <==> job.pickup.proof.None?)
  {
    ReachableJob(run, t, id);
  }

  // ------------------------------------------------------------------- decisions

  function OpenDecisions(decisions: seq<Decision>): nat {
    if decisions == [] then 0
    else
      OpenDecisions(decisions[..|decisions| - 1])
        + if FailureDecision.IsOpen(decisions[|decisions| - 1]) then 1 else 0
  }

  lemma {:induction false} NoneOpen(decisions: seq<Decision>)
    requires forall i :: 0 <= i < |decisions| ==> !FailureDecision.IsOpen(decisions[i])
    ensures OpenDecisions(decisions) == 0
  {
    if decisions != [] {
      NoneOpen(decisions[..|decisions| - 1]);
    }
  }

  /** One open decision while failed and none otherwise; as many decisions as failures. */
  lemma DecisionsMatchFailures(run: Trace, t: nat, id: JobId)
    requires Reachable(run, t, id)
    ensures var job := run.states[t].jobs[id];
      && OpenDecisions(job.decisions) == (if job.row.status == DeliveryFailed then 1 else 0)
      && |job.decisions| == Entries(job.row.log, DeliveryFailed)
      && (forall i :: 0 <= i < |job.decisions| ==>
            && job.decisions[i].recommended == Recommend(job.decisions[i].reason)
            && (job.decisions[i].overridden <==> job.decisions[i].decided != job.decisions[i].recommended))
  {
    ReachableJob(run, t, id);
    var job := run.states[t].jobs[id];
    if job.row.status == DeliveryFailed {
      NoneOpen(job.decisions[..|job.decisions| - 1]);
    } else {
      NoneOpen(job.decisions);
    }
  }

  /**
   * What an administrator who states a reason can do about a failure: retry and return always
   * succeed, reassign and cancel exactly when the rider holds no cash.
   */
  lemma AdminExits(run: Trace, t: nat, id: JobId, action: Action)
    requires Reachable(run, t, id) && run.states[t].jobs[id].row.status == DeliveryFailed
    ensures var job := run.states[t].jobs[id];
      var result := ResolveFailure(job, Some(action), true);
      && (result.Ok? <==> !(action.ReassignRider? || action.CancelAndRefund?) || !HoldsCash(job))
      && (result.Ok? ==> (result.value.job.row.status == DeliveryFailed <==> action.EscalateToAdmin?))
  {
    ReachableJob(run, t, id);
    OpenIsLast(run.states[t].jobs[id].row, run.states[t].jobs[id].decisions);
  }

  /** Where the policy sends a failed parcel for each reason, when nobody overrides it. */
  function PolicyDestination(reason: FailureReason): JobStatus {
    match reason
    case CustomerUnreachable | PaymentNotAvailable => OutForDelivery
    case CustomerRefused | PackageDamaged => ReturningToStore
    case VehicleBreakdown => WaitingForDispatch
    case AddressNotFound | WrongAddress | SafetyConcern | OtherReason => DeliveryFailed
  }

  /**
   * Recording a failure and applying its decision as it stands needs no override reason, and sends the
   * job where the policy says, except that a rider who holds cash is not taken off the job.
   */
  lemma DefaultFollowsPolicy(run: Trace, t: nat, id: JobId, reason: FailureReason)
    requires Reachable(run, t, id) && IsFailable(run.states[t].jobs[id].row.status)
    ensures var job := run.states[t].jobs[id];
      var failed := RecordFailure(job, Admin, reason);
      && failed.Ok?
      && var resolved := ResolveFailure(failed.value.job, None, false);
      && (resolved.Ok? <==> !(reason.VehicleBreakdown? && HoldsCash(job)))
      && (resolved.Ok? ==> resolved.value.job.row.status == PolicyDestination(reason))
  {
    ReachableJob(run, t, id);
    FailThenResolve(run.states[t].jobs[id], reason);
  }

  lemma FailThenResolve(job: Job, reason: FailureReason)
    requires JobInv(job) && IsFailable(job.row.status)
    ensures var failed := RecordFailure(job, Admin, reason);
      && failed.Ok?
      && var resolved := ResolveFailure(failed.value.job, None, false);
      && (resolved.Ok? <==> !(reason.VehicleBreakdown? && HoldsCash(job)))
      && (resolved.Ok? ==> resolved.value.job.row.status == PolicyDestination(reason))
  {
    RecordFailureKeeps(job, Admin, reason);
    var failed := RecordFailure(job, Admin, reason).value.job;
    assert failed.decisions[|failed.decisions| - 1] == Decide(reason);
    ResolveDefault(failed, reason);
  }

  lemma ResolveDefault(job: Job, reason: FailureReason)
    requires job.row.status.DeliveryFailed? && DecisionInv(job.row, job.decisions)
    requires job.decisions[|job.decisions| - 1] == Decide(reason)
    ensures var resolved := ResolveFailure(job, None, false);
      && (resolved.Ok? <==> !(reason.VehicleBreakdown? && HoldsCash(job)))
      && (resolved.Ok? ==> resolved.value.job.row.status == PolicyDestination(reason))
  {
    OpenIsLast(job.row, job.decisions);
  }

  // ------------------------------------------------------------------ simulation

  /** The order mirrors the job, and the job's history is an order history with stutters and returns to PACKED. */
  lemma OrderFollowsJob(run: Trace, t: nat, id: JobId)
    requires Reachable(run, t, id)
    ensures var row := run.states[t].jobs[id].row;
      var trace := MirrorTrace(row.log);
      && row.order == OrderMirror(LegacyOrderStatus(row.status), row.rider)
      && row.version == |row.log|
      && trace[|row.log|] == row.order.status
      && (forall i, k :: 0 <= i && k == i + 1 && k < |trace| ==> MirrorStep(trace[i], trace[k]))
  {
    ReachableJob(run, t, id);
    var row := run.states[t].jobs[id].row;
    SimulatesOrder(row.log, row.status);
  }

  // --------------------------------------------------------------------- history

  /** Whatever happens later, closed codes, challenges, offers and decisions stay closed, and logs only extend. */
  lemma HistoryIsNeverRewritten(run: Trace, t: nat, later: nat, id: JobId)
    requires Reachable(run, t, id) && t <= later < |run.states|
    ensures id in run.states[later].jobs
    ensures JobGrows(run.states[t].jobs[id], run.states[later].jobs[id])
  {
    RunGrows(run, t, later);
    assert At(run.states[t].jobs, id);
  }

  // -------------------------------------------------------------------- progress

  function StepsBack(status: JobStatus): nat {
    match status
    case RiderAssigned | PickupVerified => 4
    case EnRouteToStore | AtStore | OutForDelivery | AtCustomer => 3
    case DeliveryFailed => 2
    case ReturningToStore => 1
    case _ => 0
  }

  /** Who asks for that step: the rider travels, an administrator does the rest. */
  function BackRequest(id: JobId, status: JobStatus, rider: RiderId): Request {
    match status
    case RiderAssigned => TravelLeg(id, LeaveForStore, rider)
    case PickupVerified => TravelLeg(id, LeaveStore, rider)
    case EnRouteToStore | AtStore | OutForDelivery | AtCustomer => Fail(id, Admin, OtherReason, None)
    case DeliveryFailed => Resolve(id, Admin, Some(ReturnToStore), true, None)
    case _ => ReceiveReturn(id, Admin, None)
  }

  function WayBack(id: JobId, status: JobStatus, rider: RiderId): seq<Request>
    decreases StepsBack(status)
  {
    if !IsActive(status) then []
    else [BackRequest(id, status, rider)] + WayBack(id, TowardStore(status), rider)
  }

  lemma BackUpdate(job: Job, id: JobId, rider: RiderId)
    requires DecisionInv(job.row, job.decisions) && IsCarrying(job.row, rider)
    ensures var result := Update(BackRequest(id, job.row.status, rider), job);
      && result.Ok?
      && result.value.job.row == Advance(job.row, TowardStore(job.row.status), None)
  {
    if job.row.status == DeliveryFailed {
      OpenIsLast(job.row, job.decisions);
    }
  }

  lemma BackStep(db: Db, id: JobId, rider: RiderId)
    requires id in db.jobs && DecisionInv(db.jobs[id].row, db.jobs[id].decisions)
    requires IsCarrying(db.jobs[id].row, rider)
    ensures var after := Next(db, BackRequest(id, db.jobs[id].row.status, rider));
      && id in after.jobs
      && after.jobs[id].row.status == TowardStore(db.jobs[id].row.status)
      && after.jobs[id].row.rider == Some(rider)
  {
    BackUpdate(db.jobs[id], id, rider);
  }

  lemma BackStepSafe(db: Db, id: JobId, rider: RiderId)
    requires DbInv(db) && id in db.jobs && IsCarrying(db.jobs[id].row, rider)
    ensures var after := Next(db, BackRequest(id, db.jobs[id].row.status, rider));
      && DbInv(after)
      && id in after.jobs
      && after.jobs[id].row.status == TowardStore(db.jobs[id].row.status)
      && after.jobs[id].row.rider == Some(rider)
  {
    assert At(db.jobs, id);
    BackStep(db, id, rider);
    NextSafe(db, BackRequest(id, db.jobs[id].row.status, rider));
  }

  lemma {:induction false} RunSplit(db: Db, first: seq<Request>, more: seq<Request>)
    ensures Run(db, first + more) == Run(Run(db, first), more)
  {
    if more == [] {
      assert first + more == first;
    } else {
      var front := more[..|more| - 1];
      RunSplit(db, first, front);
      assert (first + more)[..|first + more| - 1] == first + front;
    }
  }

  lemma RunFirst(db: Db, request: Request, rest: seq<Request>)
    ensures Run(db, [request] + rest) == Run(Next(db, request), rest)
  {
    RunSplit(db, [request], rest);
    assert [request][..0] == [];
  }

  /** What is left to do after the first step back. */
  lemma BackFirst(db: Db, id: JobId, status: JobStatus, rider: RiderId)
    requires IsActive(status)
    ensures Run(db, WayBack(id, status, rider)) ==
            Run(Next(db, BackRequest(id, status, rider)), WayBack(id, TowardStore(status), rider))
  {
    RunFirst(db, BackRequest(id, status, rider), WayBack(id, TowardStore(status), rider));
  }

  ghost predicate IsBack(db: Db, id: JobId) {
    id in db.jobs && db.jobs[id].row.status == ReturnedToStore
  }

  lemma TowardIsCloser(status: JobStatus)
    requires IsActive(status)
    ensures StepsBack(TowardStore(status)) < StepsBack(status)
  {
  }

  lemma {:induction false} ComesBack(db: Db, id: JobId, rider: RiderId)
    requires DbInv(db) && id in db.jobs && IsCarrying(db.jobs[id].row, rider)
    ensures IsBack(Run(db, WayBack(id, db.jobs[id].row.status, rider)), id)
    decreases StepsBack(db.jobs[id].row.status)
  {
    var status := db.jobs[id].row.status;
    var after := Next(db, BackRequest(id, status, rider));
    BackStepSafe(db, id, rider);
    BackFirst(db, id, status, rider);
    if IsActive(TowardStore(status)) {
      TowardIsCloser(status);
      ComesBack(after, id, rider);
    } else {
      assert WayBack(id, TowardStore(status), rider) == [] && Run(after, []) == after;
    }
  }

  /** No active job is stuck: at every moment of a run its rider and an administrator can bring the parcel back. */
  lemma CanAlwaysComeBack(run: Trace, t: nat, id: JobId, rider: RiderId)
    requires Reachable(run, t, id) && IsCarrying(run.states[t].jobs[id].row, rider)
    ensures IsBack(Run(run.states[t], WayBack(id, run.states[t].jobs[id].row.status, rider)), id)
  {
    RunSafe(run, t);
    ComesBack(run.states[t], id, rider);
  }
}
