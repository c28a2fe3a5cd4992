/** A run of the delivery protocol in which a parcel that was already handed over waits at the store again. */
module DeliveryExamples {
  import opened Common
  import opened DeliveryStatus
  import opened Workflow
  import opened FailureDecision
  import opened DeliveryProtocol
  import opened DeliverySafety
  import Pickup

  const BOTH_ONLINE: map<RiderId, RiderStatus> := map[7 := RiderStatus.Online, 8 := RiderStatus.Online]

  const OPENING: Db := Db(map[], BOTH_ONLINE, map[])

  function After(requests: seq<Request>): Db {
    Run(OPENING, requests)
  }

  /** A database with one job. */
  function OneJob(job: Job, riders: map<RiderId, RiderStatus>): Db {
    Db(map[0 := job], riders, map[])
  }

  lemma AfterOne(requests: seq<Request>, request: Request)
    ensures After(requests + [request]) == Next(After(requests), request)
  {
    assert (requests + [request])[..|requests|] == requests;
  }

  lemma Updated(requests: seq<Request>, job: Job, riders: map<RiderId, RiderStatus>, request: Request, after: Job)
    requires After(requests) == OneJob(job, riders) && request.id == 0
    requires request.TravelLeg? || request.Checklist? || request.ConfirmHandoff? || request.Fail? || request.Resolve?
    requires RefusedAtOnce(request).None? && KeyLeft(request).None?
    requires Update(request, job).Ok? && Update(request, job).value.job == after
    ensures After(requests + [request]) == OneJob(after, ReleaseRider(riders, job.row, after.row))
  {
    AfterOne(requests, request);
  }

  function Offered(job: Job, rider: RiderId): Job {
    job.(assignments := job.assignments + [Assignment(rider, AssignmentStatus.Offered, 60000)])
  }

  lemma OfferedNow(requests: seq<Request>, job: Job, riders: map<RiderId, RiderStatus>, rider: RiderId)
    requires After(requests) == OneJob(job, riders)
    requires job.row.status.WaitingForDispatch? && job.row.rider.None? && !HasOpen(job.assignments)
    requires rider in riders && riders[rider] == RiderStatus.Online
    ensures After(requests + [OfferJob(0, rider, Admin, 60, 0)]) == OneJob(Offered(job, rider), riders)
  {
    assert ExpireOverdue(job.assignments, 0) == job.assignments by {
      forall i | 0 <= i < |job.assignments| ensures !job.assignments[i].status.Offered? {
        assert !DeliveryProtocol.IsOpen(job.assignments[i]);
      }
    }
    AfterOne(requests, OfferJob(0, rider, Admin, 60, 0));
  }

  /** The last assignment is accepted by its rider. */
  function Taken(job: Job, rider: RiderId): Job
    requires job.assignments != []
  {
    job.(
      row := Advance(job.row, RiderAssigned, Some(rider)),
      assignments := SetAssignment(job.assignments, |job.assignments| - 1, Accepted))
  }

  lemma TakenNow(requests: seq<Request>, job: Job, riders: map<RiderId, RiderStatus>, i: nat, rider: RiderId)
    requires After(requests) == OneJob(job, riders) && |job.assignments| == i + 1
    requires job.row.status.WaitingForDispatch? && job.ledger.None?
    requires job.assignments[i] == Assignment(rider, AssignmentStatus.Offered, 60000)
    ensures After(requests + [AcceptOffer(0, i, rider, 1)]) == OneJob(Taken(job, rider), riders[rider := Busy])
  {
    AfterOne(requests, AcceptOffer(0, i, rider, 1));
  }

  function Moved(job: Job, to: JobStatus): Job {
    job.(row := Advance(job.row, to, None))
  }

  lemma Travelled(requests: seq<Request>, job: Job, riders: map<RiderId, RiderStatus>, rider: RiderId, leg: Leg)
    requires After(requests) == OneJob(job, riders) && job.row.rider == Some(rider)
    requires CanMove(job.row.status, Destination(leg)) && RiderMay(job.row.status, Destination(leg))
    ensures After(requests + [TravelLeg(0, leg, rider)]) == OneJob(Moved(job, Destination(leg)), riders)
  {
    Updated(requests, job, riders, TravelLeg(0, leg, rider), Moved(job, Destination(leg)));
  }

  /** A waiting job after a rider was offered it, accepted it, and came to the store. */
  function AtTheStore(job: Job, rider: RiderId): Job {
    Moved(Moved(Taken(Offered(job, rider), rider), EnRouteToStore), AtStore)
  }

  function ToStore(rider: RiderId, i: nat): seq<Request> {
    [OfferJob(0, rider, Admin, 60, 0)] + [AcceptOffer(0, i, rider, 1)] + [TravelLeg(0, LeaveForStore, rider)]
    + [TravelLeg(0, ReachStore, rider)]
  }

  lemma SentToStore(requests: seq<Request>, job: Job, riders: map<RiderId, RiderStatus>, rider: RiderId)
    requires After(requests) == OneJob(job, riders) && job.ledger.None?
    requires job.row.status.WaitingForDispatch? && job.row.rider.None? && !HasOpen(job.assignments)
    requires rider in riders && riders[rider] == RiderStatus.Online
    ensures After(requests + ToStore(rider, |job.assignments|)) == OneJob(AtTheStore(job, rider), riders[rider := Busy])
  {
    var i, busy := |job.assignments|, riders[rider := Busy];
    var asked := requests + [OfferJob(0, rider, Admin, 60, 0)];
    var agreed := asked + [AcceptOffer(0, i, rider, 1)];
    OfferedNow(requests, job, riders, rider);
    TakenNow(asked, Offered(job, rider), riders, i, rider);
    Travelled(agreed, Taken(Offered(job, rider), rider), busy, rider, LeaveForStore);
    Travelled(agreed + [TravelLeg(0, LeaveForStore, rider)], Moved(Taken(Offered(job, rider), rider), EnRouteToStore),
              busy, rider, ReachStore);
    assert agreed + [TravelLeg(0, LeaveForStore, rider)] + [TravelLeg(0, ReachStore, rider)] ==
           requests + ToStore(rider, i);
  }

  const HANDED_OVER: Pickup.PickupFile := Pickup.PickupFile(true, [], Some(Pickup.PickupProof(7, 5, 1, None)))

  function HandOver(): seq<Request> {
    [Checklist(0, true)] + [ConfirmHandoff(0, StoreOwner(5), 1)] + [TravelLeg(0, LeaveStore, 7)]
  }

  function Gone(job: Job): Job {
    Moved(Moved(job.(pickup := HANDED_OVER), PickupVerified), OutForDelivery)
  }

  /** At the store the checklist is verified, the handoff confirmed, and the rider leaves. */
  lemma HandedOver(requests: seq<Request>, job: Job, riders: map<RiderId, RiderStatus>)
    requires After(requests) == OneJob(job, riders)
    requires job.row.status.AtStore? && job.row.rider == Some(7) && job.storeOwner == 5
    requires job.pickup == Pickup.PickupFile(false, [], None)
    ensures After(requests + HandOver()) == OneJob(Gone(job), riders)
  {
    var checked := job.(pickup := Pickup.PickupFile(true, [], None));
    var handed := Moved(job.(pickup := HANDED_OVER), PickupVerified);
    var ready := requests + [Checklist(0, true)];
    Updated(requests, job, riders, Checklist(0, true), checked);
    Updated(ready, checked, riders, ConfirmHandoff(0, StoreOwner(5), 1), handed);
    Travelled(ready + [ConfirmHandoff(0, StoreOwner(5), 1)], handed, riders, 7, LeaveStore);
    assert ready + [ConfirmHandoff(0, StoreOwner(5), 1)] + [TravelLeg(0, LeaveStore, 7)] == requests + HandOver();
  }

  function BreakDown(): seq<Request> {
    [Fail(0, Rider(7), VehicleBreakdown, None)] + [Resolve(0, Admin, None, false, None)]
  }

  function Failed(job: Job): Job {
    Moved(job, DeliveryFailed).(decisions := [Decide(VehicleBreakdown)])
  }

  /** The vehicle broke down, and the job went back to the queue as the policy has it. */
  function Requeued(job: Job): Job {
    Moved(Failed(job), WaitingForDispatch).(
      assignments := [Assignment(7, AssignmentStatus.Reassigned, 60000)],
      decisions := [ApplyAction(Decide(VehicleBreakdown), ReassignRider)])
  }

  lemma FailedIsRequeued(job: Job)
    requires job.row.status.OutForDelivery? && job.ledger.None?
    requires job.assignments == [Assignment(7, AssignmentStatus.Accepted, 60000)]
    ensures ResolveFailure(Failed(job), None, false) == Ok(Saved(Requeued(job), Done))
  {
    var failed := Failed(job);
    assert LatestOpen(failed.decisions) == Some(0);
    assert failed.decisions[0 := ApplyAction(Decide(VehicleBreakdown), ReassignRider)] == Requeued(job).decisions;
    assert Reassign(failed.assignments) == Requeued(job).assignments;
  }

  lemma FailedNow(requests: seq<Request>, job: Job, riders: map<RiderId, RiderStatus>)
    requires After(requests) == OneJob(job, riders)
    requires job.row.status.OutForDelivery? && job.row.rider == Some(7) && job.decisions == []
    ensures After(requests + [Fail(0, Rider(7), VehicleBreakdown, None)]) == OneJob(Failed(job), riders)
  {
    assert job.decisions + [Decide(VehicleBreakdown)] == Failed(job).decisions;
    Updated(requests, job, riders, Fail(0, Rider(7), VehicleBreakdown, None), Failed(job));
  }

  lemma BrokenDown(requests: seq<Request>, job: Job, riders: map<RiderId, RiderStatus>)
    requires After(requests) == OneJob(job, riders) && 7 in riders
    requires job.row.status.OutForDelivery? && job.row.rider == Some(7) && job.ledger.None? && job.decisions == []
    requires job.assignments == [Assignment(7, AssignmentStatus.Accepted, 60000)]
    ensures After(requests + BreakDown()) == OneJob(Requeued(job), riders[7 := RiderStatus.Online])
  {
    var fail := [Fail(0, Rider(7), VehicleBreakdown, None)];
    FailedNow(requests, job, riders);
    FailedIsRequeued(job);
    Updated(requests + fail, Failed(job), riders, Resolve(0, Admin, None, false, None), Requeued(job));
    assert requests + fail + [Resolve(0, Admin, None, false, None)] == requests + BreakDown();
  }

  const CREATE: seq<Request> := [CreateJobFor(0, Admin, 5, None)]

  lemma Created()
    ensures After(CREATE) == OneJob(PackedJob(5, None), BOTH_ONLINE)
  {
    AfterOne([], CreateJobFor(0, Admin, 5, None));
    assert [] + CREATE == CREATE;
  }

  /** The job when its second rider comes to the store. */
  function SecondVisit(): Job {
    AtTheStore(Requeued(Gone(AtTheStore(PackedJob(5, None), 7))), 8)
  }

  lemma VisitedTwice()
    ensures After(CREATE + ToStore(7, 0) + HandOver() + BreakDown() + ToStore(8, 1)) ==
      OneJob(SecondVisit(), BOTH_ONLINE[7 := Busy][7 := RiderStatus.Online][8 := Busy])
  {
    var job := PackedJob(5, None);
    var busy := BOTH_ONLINE[7 := Busy];
    var requests := CREATE + ToStore(7, 0);
    Created();
    SentToStore(CREATE, job, BOTH_ONLINE, 7);
    HandedOver(requests, AtTheStore(job, 7), busy);
    BrokenDown(requests + HandOver(), Gone(AtTheStore(job, 7)), busy);
    SentToStore(requests + HandOver() + BreakDown(), Requeued(Gone(AtTheStore(job, 7))),
                busy[7 := RiderStatus.Online], 8);
  }

  lemma NotHandedAgain(job: Job, riders: map<RiderId, RiderStatus>)
    requires job.row.status.AtStore? && job.row.rider.Some? && job.storeOwner == 5 && job.pickup == HANDED_OVER
    ensures Handle(OneJob(job, riders), ConfirmHandoff(0, StoreOwner(5), 1)) == Committed(OneJob(job, riders), Done)
  {
    assert ConfirmPickup(job, StoreOwner(5), 1) == Ok(Saved(job, Done));
    assert OneJob(job, riders).jobs[0 := job] == OneJob(job, riders).jobs;
  }

  /**
   * The second rider stands at the store with a verified checklist, but the parcel was handed over to the
   * first one: confirming the handoff commits and leaves the job where it is.
   */
  lemma SecondHandoffStalls()
    ensures IsInitial(OPENING)
    ensures var db := After(CREATE + ToStore(7, 0) + HandOver() + BreakDown() + ToStore(8, 1));
      0 in db.jobs && db.jobs[0].row.status.AtStore? && db.jobs[0].row.rider == Some(8)
      && Handle(db, ConfirmHandoff(0, StoreOwner(5), 1)) == Committed(db, Done)
  {
    VisitedTwice();
    NotHandedAgain(SecondVisit(), BOTH_ONLINE[7 := Busy][7 := RiderStatus.Online][8 := Busy]);
  }
}
