/**
 * The delivery protocol and the shop describe one delivery job twice. Whatever the protocol does to a job is, on
 * the job's status and on its order's status and payment, a request of the shop on that order, or nothing.
 */
module Projection {
  import opened Common
  import opened DeliveryStatus
  import opened Workflow
  import opened Payments
  import opened DeliveryProtocol
  import Shop

  // --------------------------------------------------------- what one step amounts to

  predicate Stays(before: Job, after: Job) {
    after.row == before.row && after.payment == before.payment
  }

  predicate Advances(before: Job, after: Job) {
    && IsServed(before.row.status, after.row.status)
    && after.row.order.status == LegacyOrderStatus(after.row.status)
    && after.payment == before.payment
  }

  predicate CancelsFailed(before: Job, after: Job) {
    && before.row.status.DeliveryFailed? && after.row.status.Cancelled?
    && after.row.order.status == OrderCancelled
    && (before.payment.Some? ==> after.payment == Some(RefundFailedDelivery(before.payment.value)))
  }

  predicate TakesCash(before: Job, after: Job) {
    && after.row == before.row
    && (before.row.status.OutForDelivery? || before.row.status.AtCustomer?)
    && IsCod(before.payment) && before.payment.value.status.PendingCod?
    && after.payment == Some(before.payment.value.(status := Captured))
  }

  /** A job is left alone, takes a served move, is cancelled after a failure, or its cash comes in. */
  predicate JobStep(before: Job, after: Job) {
    Stays(before, after) || Advances(before, after) || CancelsFailed(before, after) || TakesCash(before, after)
  }

  lemma ResolveSteps(job: Job, requested: Option<FailureDecision.Action>, hasOverrideReason: bool)
    requires ResolveFailure(job, requested, hasOverrideReason).Ok?
    ensures JobStep(job, ResolveFailure(job, requested, hasOverrideReason).value.job)
  {
  }

  lemma TravelSteps(job: Job, leg: Leg, rider: RiderId)
    requires Travel(job, leg, rider).Ok?
    ensures JobStep(job, Travel(job, leg, rider).value.job)
  {
  }

  lemma PickupSteps(job: Job, request: Request)
    requires request.ChallengePickup? || request.VerifyPickup? || request.ConfirmHandoff?
    requires Update(request, job).Ok?
    ensures JobStep(job, Update(request, job).value.job)
  {
  }

  lemma DoorSteps(job: Job, request: Request)
    requires request.Complete? || request.Fail?
    requires Update(request, job).Ok?
    ensures JobStep(job, Update(request, job).value.job)
  {
  }

  lemma CashSteps(job: Job, request: Request)
    requires request.CollectCash? || request.SettleCash?
    requires Update(request, job).Ok?
    ensures JobStep(job, Update(request, job).value.job)
  {
  }

  lemma UpdateSteps(job: Job, request: Request)
    requires Update(request, job).Ok?
    ensures JobStep(job, Update(request, job).value.job)
  {
    match request
    case TravelLeg(_, leg, rider) => TravelSteps(job, leg, rider);
    case Resolve(_, _, action, hasOverrideReason, _) => ResolveSteps(job, action, hasOverrideReason);
    case ChallengePickup(_, _, _, _, _, _) => PickupSteps(job, request);
    case VerifyPickup(_, _, _, _, _, _) => PickupSteps(job, request);
    case ConfirmHandoff(_, _, _) => PickupSteps(job, request);
    case Complete(_, _, _, _, _) => DoorSteps(job, request);
    case Fail(_, _, _, _) => DoorSteps(job, request);
    case CollectCash(_, _, _, _) => CashSteps(job, request);
    case SettleCash(_, _, _, _) => CashSteps(job, request);
    case _ =>
  }

  lemma OneSteps(db: Db, request: Request, id: JobId)
    requires HandleOne(db, request).Committed? && id in db.jobs
    ensures id in HandleOne(db, request).db.jobs
    ensures JobStep(db.jobs[id], HandleOne(db, request).db.jobs[id])
  {
    if request.id in db.jobs && Update(request, db.jobs[request.id]).Ok? {
      UpdateSteps(db.jobs[request.id], request);
    }
  }

  lemma HandleSteps(db: Db, request: Request, id: JobId)
    requires Handle(db, request).Committed? && id in db.jobs
    ensures id in Handle(db, request).db.jobs
    ensures JobStep(db.jobs[id], Handle(db, request).db.jobs[id])
  {
    match request
    case CreateJobFor(_, _, _, _) =>
    case OfferJob(_, _, _, _, _) =>
    case AcceptOffer(_, _, _, _) =>
    case RejectOffer(_, _, _) =>
    case SendOtp(_, _, _, _, _) =>
    case _ => OneSteps(db, request, id);
  }

  // ------------------------------------------------------------------ the shop's view

  /** The shop's order has the job's status and the job's payment. */
  predicate Shows(order: Shop.Order, job: Job) {
    order.job == Some(job.row.status) && job.payment == Some(order.payment)
  }

  /** It also has the status that the job writes to its order. */
  predicate Mirrors(order: Shop.Order, job: Job) {
    Shows(order, job) && order.status == job.row.order.status
  }

  /** The shop's request for a step of the job, if the step changes anything the shop knows. */
  function Shadow(before: Job, after: Job, order: nat): Option<Shop.Request> {
    if Stays(before, after) then None
    else if Advances(before, after) then Some(Shop.MoveJob(order, after.row.status))
    else if CancelsFailed(before, after) then Some(Shop.CancelFailedDelivery(order))
    else Some(Shop.CollectCash(order))
  }

  /** What a shop becomes by an optional request, which commits. */
  predicate Becomes(shop: Shop.Shop, request: Option<Shop.Request>, after: Shop.Shop) {
    if request.None? then after == shop else Shop.Handle(shop, request.value) == Ok(after)
  }

  function ByShadow(shop: Shop.Shop, before: Job, after: Job, order: nat): Shop.Shop {
    var shadow := Shadow(before, after, order);
    if shadow.None? then shop else Shop.Next(shop, shadow.value)
  }

  /** A step of the job is shown by its request, whatever the order's status was. */
  lemma StepIsShown(before: Job, after: Job, shop: Shop.Shop, order: nat)
    requires JobStep(before, after) && order < |shop.orders| && Shows(shop.orders[order], before)
    ensures Becomes(shop, Shadow(before, after, order), ByShadow(shop, before, after, order))
    ensures var shown := ByShadow(shop, before, after, order);
      && order < |shown.orders| && Shows(shown.orders[order], after)
      && (after.row == before.row ==> shown.orders[order].status == shop.orders[order].status)
      && (after.row != before.row ==> shown.orders[order].status == after.row.order.status)
  {
  }

  /** Requests of the delivery side on one order. */
  predicate IsOnJob(request: Shop.Request, order: nat) {
    match request
    case MoveJob(id, _) => id == order
    case CancelFailedDelivery(id) => id == order
    case CollectCash(id) => id == order
    case _ => false
  }

  /** The shop after some requests that all commit and concern the job of one order. */
  predicate Plays(shop: Shop.Shop, requests: seq<Shop.Request>, order: nat, after: Shop.Shop)
    decreases requests
  {
    if requests == [] then after == shop
    else
      && IsOnJob(requests[0], order) && Shop.Handle(shop, requests[0]).Ok?
      && Plays(Shop.Next(shop, requests[0]), requests[1..], order, after)
  }

  lemma {:induction false} PlaysOneMore(shop: Shop.Shop, requests: seq<Shop.Request>, order: nat, end: Shop.Shop,
                                        last: Shop.Request)
    requires Plays(shop, requests, order, end) && IsOnJob(last, order) && Shop.Handle(end, last).Ok?
    ensures Plays(shop, requests + [last], order, Shop.Next(end, last))
    decreases requests
  {
    if requests == [] {
      assert [last][1..] == [];
    } else {
      PlaysOneMore(Shop.Next(shop, requests[0]), requests[1..], order, end, last);
      assert (requests + [last])[1..] == requests[1..] + [last];
    }
  }

  /** Some requests of the shop lead from one shop to another that mirrors the job. */
  ghost predicate IsMirrored(shop: Shop.Shop, order: nat, job: Job) {
    exists requests, end :: Plays(shop, requests, order, end)
      && order < |end.orders| && Mirrors(end.orders[order], job)
  }

  lemma MirroredOneMore(shop: Shop.Shop, order: nat, before: Job, after: Job)
    requires IsMirrored(shop, order, before) && JobStep(before, after)
    ensures IsMirrored(shop, order, after)
  {
    var requests, end :| Plays(shop, requests, order, end)
      && order < |end.orders| && Mirrors(end.orders[order], before);
    StepIsShown(before, after, end, order);
    var shadow := Shadow(before, after, order);
    if shadow.Some? {
      PlaysOneMore(shop, requests, order, end, shadow.value);
      assert Plays(shop, requests + [shadow.value], order, ByShadow(end, before, after, order));
    }
  }

  /**
   * Over every run of the protocol: what happens to a job from one moment to a later one, a shop whose order
   * mirrors the job at first can follow by requests of its own that all commit.
   */
  lemma {:induction false} RunIsShown(run: Trace, t: nat, later: nat, id: JobId, shop: Shop.Shop, order: nat)
    requires IsRun(run) && t <= later < |run.states| && id in run.states[t].jobs
    requires order < |shop.orders| && Mirrors(shop.orders[order], run.states[t].jobs[id])
    ensures id in run.states[later].jobs && IsMirrored(shop, order, run.states[later].jobs[id])
  {
    if t == later {
      assert Plays(shop, [], order, shop);
    } else {
      RunIsShown(run, t, later - 1, id, shop, order);
      assert Leads(run, later - 1);
      var db, request := run.states[later - 1], run.requests[later - 1];
      if Handle(db, request).Committed? {
        HandleSteps(db, request, id);
        MirroredOneMore(shop, order, db.jobs[id], run.states[later].jobs[id]);
      }
    }
  }

  /** A job made for a packed order is the one the shop starts for it. */
  lemma CreationIsShown(db: Db, id: JobId, actor: Actor, storeOwner: UserId, shop: Shop.Shop, order: nat)
    requires id !in db.jobs && order < |shop.orders|
    requires shop.orders[order].status.OrderPacked? && shop.orders[order].job.None?
    requires CreateJob(db, id, actor, storeOwner, Some(shop.orders[order].payment)).Committed?
    ensures Shop.Handle(shop, Shop.StartJob(order)).Ok?
    ensures var created := CreateJob(db, id, actor, storeOwner, Some(shop.orders[order].payment)).db.jobs[id];
      Mirrors(Shop.Next(shop, Shop.StartJob(order)).orders[order], created)
  {
  }

  /** Only a job that waits or is carried ever moves. */
  lemma MovesOnlyWhileLive(db: Db, request: Request, id: JobId)
    requires id in db.jobs && Handle(db, request).Committed?
    ensures id in Next(db, request).jobs
    ensures Next(db, request).jobs[id].row != db.jobs[id].row ==>
      db.jobs[id].row.status.WaitingForDispatch? || IsActive(db.jobs[id].row.status)
  {
    HandleSteps(db, request, id);
  }
}
