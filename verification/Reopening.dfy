/** Who can open a cancelled order again: the requests that move its delivery job, as the shop sees them. */
module Reopening {
  import opened Common
  import opened DeliveryStatus
  import opened Workflow
  import opened DeliveryProtocol
  import opened DeliveryTheorems
  import opened Projection
  import Shop
  import ShopForced

  /**
   * At every moment of a run, a carried job has a request that commits and whose step opens the order again in a
   * shop where it was cancelled meanwhile.
   */
  lemma CarriedJobReopens(run: Trace, t: nat, id: JobId, rider: RiderId, shop: Shop.Shop, order: nat)
    requires Reachable(run, t, id) && IsCarrying(run.states[t].jobs[id].row, rider)
    requires order < |shop.orders| && Shows(shop.orders[order], run.states[t].jobs[id])
    requires shop.orders[order].status.OrderCancelled?
    ensures var job := run.states[t].jobs[id];
      var request := BackRequest(id, job.row.status, rider);
      && Handle(run.states[t], request).Committed?
      && id in Next(run.states[t], request).jobs
      && Shadow(job, Next(run.states[t], request).jobs[id], order)
         == Some(Shop.MoveJob(order, TowardStore(job.row.status)))
      && ShopForced.Reopens(shop, order, TowardStore(job.row.status))
  {
    var job := run.states[t].jobs[id];
    var request := BackRequest(id, job.row.status, rider);
    ReachableJob(run, t, id);
    BackStep(run.states[t], id, rider);
    HandleSteps(run.states[t], request, id);
    ShopForced.JobMoves(shop, order, TowardStore(job.row.status));
  }

  /** A waiting job whose offer is accepted opens it, too. */
  lemma TakenJobReopens(db: Db, id: JobId, i: nat, rider: RiderId, now: int, shop: Shop.Shop, order: nat)
    requires Handle(db, AcceptOffer(id, i, rider, now)).Committed? && id in db.jobs
    requires order < |shop.orders| && Shows(shop.orders[order], db.jobs[id])
    requires shop.orders[order].status.OrderCancelled?
    ensures var after := Next(db, AcceptOffer(id, i, rider, now));
      && id in after.jobs
      && Shadow(db.jobs[id], after.jobs[id], order) == Some(Shop.MoveJob(order, RiderAssigned))
      && ShopForced.Reopens(shop, order, RiderAssigned)
  {
    ShopForced.JobMoves(shop, order, RiderAssigned);
  }
}
