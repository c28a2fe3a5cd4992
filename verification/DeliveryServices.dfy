/**
 * The delivery services as they run: each opens a transaction, updates rows one table at a time and
 * commits, or returns an error and leaves the database as it was. Every method answers exactly as the
 * protocol says.
 */
module DeliveryServices {
  import opened Common
  import opened DeliveryStatus
  import opened Workflow
  import opened Payments
  import opened CodLedger
  import opened FailureDecision
  import opened DeliveryProtocol
  import Pickup
  import DeliveryOtp

  class DeliveryDatabase {
    var jobs: map<JobId, Job>
    var riders: map<RiderId, RiderStatus>
    var keys: map<Key, Operation>

    function State(): Db
      reads this
    {
      Db(jobs, riders, keys)
    }

    constructor (riders: map<RiderId, RiderStatus>)
      ensures State() == Db(map[], riders, map[])
    {
      this.jobs := map[];
      this.riders := riders;
      this.keys := map[];
    }
  }

  /** What a caller sees of a request: the reply or the error, and the database it leaves. */
  ghost predicate Answers(before: Db, request: Request, result: Result<Reply>, after: Db) {
    match Handle(before, request)
    case Committed(db, reply) => result == Ok(reply) && after == db
    case RolledBack(error) => result == Err(error) && after == before
  }

  /** What a transaction body did to its rows, measured against the protocol's answer for the job. */
  ghost predicate Did(update: Result<Saved>, before: Job, riders: map<RiderId, RiderStatus>,
                      result: Result<Reply>, after: Job, ridersAfter: map<RiderId, RiderStatus>) {
    match update
    case Ok(saved) =>
      && result == Ok(saved.reply)
      && after == saved.job
      && ridersAfter == ReleaseRider(riders, before.row, saved.job.row)
    case Err(error) => result == Err(error)
  }

  predicate OnOneJob(request: Request) {
    !request.CreateJobFor? && !request.OfferJob? && !request.AcceptOffer? && !request.RejectOffer? && !request.SendOtp?
  }

  lemma HandledByUpdate(before: Db, request: Request)
    requires OnOneJob(request) && RefusedAtOnce(request).None? && request.id in before.jobs
    requires !request.SettleCash? && (request.CollectCash? ==> !before.jobs[request.id].collected)
    requires KeyLeft(request).Some? ==> KeyLeft(request).value.key !in before.keys
    ensures Handle(before, request) ==
      Save(before, request.id, Update(request, before.jobs[request.id]), KeyLeft(request))
  {
  }

  /** A transaction body that did what an update says, committed exactly when it succeeded. */
  lemma SavedAsDone(before: Db, id: JobId, update: Result<Saved>, left: Option<KeyUse>, result: Result<Reply>,
                    job: Job, riders: map<RiderId, RiderStatus>, after: Db)
    requires id in before.jobs
    requires Did(update, before.jobs[id], before.riders, result, job, riders)
    requires after == if result.Err? then before else Db(
      before.jobs[id := job], riders,
      if left.Some? then before.keys[left.value.key := left.value.operation] else before.keys)
    ensures match Save(before, id, update, left)
      case Committed(db, reply) => result == Ok(reply) && after == db
      case RolledBack(error) => result == Err(error) && after == before
  {
  }

  /** A request whose key is known is answered without looking at the job. */
  lemma AnsweredFromKey(before: Db, request: Request)
    requires OnOneJob(request) && RefusedAtOnce(request).None?
    requires KeyLeft(request).Some? && KeyLeft(request).value.key in before.keys
    ensures Answers(before, request, Ok(Replayed), before)
  {
  }

  lemma AnsweredMissing(before: Db, request: Request)
    requires OnOneJob(request) && RefusedAtOnce(request).None? && request.id !in before.jobs
    requires KeyLeft(request).Some? ==> KeyLeft(request).value.key !in before.keys
    ensures Answers(before, request, Err(NotFound), before)
  {
  }

  /** Such a body answers the request whose update it is. */
  lemma AnsweredByUpdate(before: Db, request: Request, result: Result<Reply>, job: Job,
                         riders: map<RiderId, RiderStatus>, after: Db)
    requires OnOneJob(request) && RefusedAtOnce(request).None? && request.id in before.jobs
    requires !request.SettleCash? && (request.CollectCash? ==> !before.jobs[request.id].collected)
    requires var left := KeyLeft(request);
      && (left.Some? ==> left.value.key !in before.keys)
      && Did(Update(request, before.jobs[request.id]), before.jobs[request.id], before.riders, result, job, riders)
      && after == if result.Err? then before else Db(
        before.jobs[request.id := job], riders,
        if left.Some? then before.keys[left.value.key := left.value.operation] else before.keys)
    ensures Answers(before, request, result, after)
  {
    HandledByUpdate(before, request);
    SavedAsDone(before, request.id, Update(request, before.jobs[request.id]), KeyLeft(request), result, job, riders,
                after);
  }

  /** The rows of one job inside a transaction, with the rider table it may write. */
  class Transaction {
    const id: JobId
    var row: JobRow
    const storeOwner: UserId
    var payment: Option<Payment>
    var assignments: seq<Assignment>
    var pickup: Pickup.PickupFile
    var otp: DeliveryOtp.OtpFile
    var proof: Option<DeliveryProof>
    var decisions: seq<Decision>
    var ledger: Option<Ledger>
    var collected: bool
    var riders: map<RiderId, RiderStatus>

    function JobNow(): Job
      reads this
    {
      Job(row, storeOwner, payment, assignments, pickup, otp, proof, decisions, ledger, collected)
    }

    constructor (db: DeliveryDatabase, id: JobId)
      requires id in db.jobs
      ensures this.id == id && JobNow() == db.jobs[id] && riders == db.riders
    {
      var job := db.jobs[id];
      this.id := id;
      row, storeOwner, payment, assignments := job.row, job.storeOwner, job.payment, job.assignments;
      pickup, otp, proof := job.pickup, job.otp, job.proof;
      decisions, ledger, collected := job.decisions, job.ledger, job.collected;
      riders := db.riders;
    }

    method Commit(db: DeliveryDatabase, used: Option<KeyUse>)
      modifies db
      ensures db.State() == Db(
        old(db.jobs)[id := JobNow()],
        riders,
        if used.Some? then old(db.keys)[used.value.key := used.value.operation] else old(db.keys))
    {
      db.jobs := db.jobs[id := JobNow()];
      db.riders := riders;
      if used.Some? {
        db.keys := db.keys[used.value.key := used.value.operation];
      }
    }
  }

  class DeliveryJobService {
    constructor () {
    }

    /** Opens the cash ledger of a cash order, with its EXPECTED entry, unless the job has one. */
    method EnsureCodLedger(job: Job) returns (result: Result<Job>)
      ensures result == EnsureLedger(job)
    {
      if job.ledger.Some? || job.payment.None? || !job.payment.value.kind.CashOnDelivery? {
        return Ok(job);
      }
      var expected := job.payment.value.amount;
      if expected <= 0 {
        return Err(BadRequest);
      }
      var ledger := Ledger(job.row.rider, expected, 0, 0, 0, 0, None, AwaitingCollection, []);
      ledger := ledger.(entries := ledger.entries + [CodEntry(ExpectedEntry, expected, 0, 0)]);
      assert [] + [CodEntry(ExpectedEntry, expected, 0, 0)] == [CodEntry(ExpectedEntry, expected, 0, 0)];
      return Ok(job.(ledger := Some(ledger)));
    }

    /** Called when an order is packed; calling it again only completes the job that is there. */
    method EnsureForPackedOrder(db: DeliveryDatabase, id: JobId, actor: Actor, storeOwner: UserId,
                                payment: Option<Payment>)
      returns (result: Result<Reply>)
      modifies db
      ensures Answers(old(db.State()), CreateJobFor(id, actor, storeOwner, payment), result, db.State())
    {
      if actor.StoreOwner? && actor.user != storeOwner {
        return Err(Forbidden);
      }
      if id in db.jobs {
        var completed := EnsureCodLedger(db.jobs[id]);
        if completed.Err? {
          return Err(completed.error);
        }
        db.jobs := db.jobs[id := completed.value];
        return Ok(Replayed);
      }
      var created := EnsureCodLedger(PackedJob(storeOwner, payment));
      if created.Err? {
        return Err(created.error);
      }
      db.jobs := db.jobs[id := created.value];
      return Ok(Done);
    }
  }

  class DeliveryWorkflowService {
    constructor () {
    }

    /** Updates the job row, then the order it mirrors in, then the history. */
    method WriteRows(tx: Transaction, next: JobStatus, newRider: Option<RiderId>)
      modifies tx`row
      ensures tx.row == Advance(old(tx.row), next, newRider)
    {
      var job := tx.row;
      var effective := job.rider;
      if newRider.Some? {
        effective := newRider;
      }
      tx.row := tx.row.(
        status := next, version := job.version + 1, rider := if next.WaitingForDispatch? then None else effective);

      var legacy := LegacyOrderStatus(next);
      var mirror := tx.row.order.(status := legacy);
      if legacy.OrderPacked? {
        mirror := mirror.(rider := None);
      } else if effective.Some? {
        mirror := mirror.(rider := effective);
      }
      tx.row := tx.row.(order := mirror);
      tx.row := tx.row.(log := tx.row.log + [StatusChange(job.status, next)]);
    }

    /** Puts the rider that carried the job back online when the job ends or is requeued. */
    method FreeRider(tx: Transaction, rider: Option<RiderId>, next: JobStatus)
      modifies tx`riders
      ensures tx.riders ==
        if Releases(next) && rider.Some? && rider.value in old(tx.riders)
        then old(tx.riders)[rider.value := RiderStatus.Online] else old(tx.riders)
    {
      if next.WaitingForDispatch? || next.Delivered? || next.ReturnedToStore? || next.Cancelled? {
        if rider.Some? && rider.value in tx.riders {
          tx.riders := tx.riders[rider.value := RiderStatus.Online];
        }
      }
    }

    /** Moves the job row, its order mirror and its event log together, and releases the rider when the job ends. */
    method TransitionWithinTransaction(tx: Transaction, next: JobStatus, actor: Actor, options: TransitionOptions)
      returns (result: Result<()>)
      modifies tx`row, tx`riders
      ensures var moved := Transition(old(tx.row), tx.storeOwner, next, actor, options);
        if moved.Ok? then
          && result == Ok(())
          && tx.row == moved.value
          && tx.riders == ReleaseRider(old(tx.riders), old(tx.row), moved.value)
        else
          result == Err(moved.error) && tx.row == old(tx.row) && tx.riders == old(tx.riders)
    {
      var job := tx.row;
      if options.expected.Some? && job.status != options.expected.value {
        return Err(Conflict);
      }
      if job.status == next {
        return Ok(());
      }
      if !CanMove(job.status, next) {
        return Err(BadRequest);
      }
      if !options.skipRoleCheck && !RoleAllows(job, tx.storeOwner, next, actor) {
        return Err(Forbidden);
      }

      WriteRows(tx, next, options.newRider);
      FreeRider(tx, job.rider, next);
      return Ok(());
    }

    /** The rider endpoints: one transition, nothing else. */
    method Travelled(db: DeliveryDatabase, id: JobId, leg: Leg, rider: RiderId) returns (result: Result<Reply>)
      modifies db
      ensures Answers(old(db.State()), TravelLeg(id, leg, rider), result, db.State())
    {
      if id !in db.jobs {
        return Err(NotFound);
      }
      var tx := new Transaction(db, id);
      var moved := TransitionWithinTransaction(
        tx, Destination(leg), Rider(rider), TransitionOptions(None, None, false));
      if moved.Err? {
        return Err(moved.error);
      }
      tx.Commit(db, None);
      return Ok(Done);
    }
  }

  class DispatchAssignmentService {
    const workflow: DeliveryWorkflowService

    constructor (workflow: DeliveryWorkflowService) {
      this.workflow := workflow;
    }

    /** One guarded update per offer, as the expiry worker makes them. */
    method ExpireOffers(tx: Transaction, now: int)
      modifies tx`assignments
      ensures tx.assignments == ExpireOverdue(old(tx.assignments), now)
    {
      var expected := ExpireOverdue(tx.assignments, now);
      for i := 0 to |tx.assignments|
        invariant |tx.assignments| == |expected|
        invariant forall k :: 0 <= k < i ==> tx.assignments[k] == expected[k]
        invariant forall k :: i <= k < |expected| ==> tx.assignments[k] == old(tx.assignments)[k]
      {
        if tx.assignments[i].status.Offered? && tx.assignments[i].expiresAt < now {
          tx.assignments := tx.assignments[i := tx.assignments[i].(status := OfferExpired)];
        }
      }
    }

    method Swept(db: DeliveryDatabase, id: JobId, now: int) returns (result: Result<Reply>)
      modifies db
      ensures Answers(old(db.State()), SweepJob(id, now), result, db.State())
    {
      if id !in db.jobs {
        return Err(NotFound);
      }
      var tx := new Transaction(db, id);
      ExpireOffers(tx, now);
      tx.Commit(db, None);
      return Ok(Done);
    }

    method Offered(db: DeliveryDatabase, id: JobId, rider: RiderId, actor: Actor, seconds: int, now: int)
      returns (result: Result<Reply>)
      modifies db
      ensures Answers(old(db.State()), OfferJob(id, rider, actor, seconds, now), result, db.State())
    {
      var safeExpiry := OfferSeconds(seconds);
      if id !in db.jobs {
        return Err(NotFound);
      }
      var tx := new Transaction(db, id);
      if !OwnedBy(tx.JobNow(), actor) {
        return Err(Forbidden);
      }
      if tx.row.status != WaitingForDispatch || tx.row.rider.Some? {
        return Err(Conflict);
      }
      if rider !in db.riders {
        return Err(NotFound);
      }
      if db.riders[rider] != RiderStatus.Online || HasActiveJob(db.State(), rider) {
        return Err(Conflict);
      }
      ExpireOffers(tx, now);
      if HasOpen(tx.assignments) {
        return Err(Conflict);
      }
      tx.assignments := tx.assignments + [Assignment(rider, AssignmentStatus.Offered, now + safeExpiry * 1000)];
      tx.Commit(db, None);
      return Ok(Done);
    }

    /** Accepts the i-th assignment inside a transaction: assignment, job, rider and ledger together. */
    method AcceptIn(tx: Transaction, i: nat, rider: RiderId) returns (result: Result<()>)
      requires i < |tx.assignments| && tx.assignments[i].rider == rider
      modifies tx`row, tx`riders, tx`assignments, tx`ledger
      ensures var accepted := AcceptedJob(old(tx.JobNow()), i);
        if accepted.Ok? then
          && result == Ok(())
          && tx.JobNow() == accepted.value
          && tx.riders == old(tx.riders)[rider := Busy]
        else result == Err(accepted.error)
    {
      tx.assignments := tx.assignments[i := tx.assignments[i].(status := AssignmentStatus.Accepted)];
      var moved := workflow.TransitionWithinTransaction(
        tx, RiderAssigned, Rider(rider), TransitionOptions(Some(WaitingForDispatch), Some(rider), true));
      if moved.Err? {
        return Err(moved.error);
      }
      tx.riders := tx.riders[rider := Busy];
      if tx.ledger.Some? && tx.ledger.value.holding == 0 {
        tx.ledger := Some(tx.ledger.value.(rider := Some(rider)));
      }
      return Ok(());
    }

    method Accepted(db: DeliveryDatabase, id: JobId, i: nat, rider: RiderId, now: int) returns (result: Result<Reply>)
      modifies db
      ensures Answers(old(db.State()), AcceptOffer(id, i, rider, now), result, db.State())
    {
      if id !in db.jobs || i >= |db.jobs[id].assignments| {
        return Err(NotFound);
      }
      var tx := new Transaction(db, id);
      var assignment := tx.assignments[i];
      if assignment.rider != rider {
        return Err(Forbidden);
      }
      if !assignment.status.Offered? {
        return Err(Conflict);
      }
      if assignment.expiresAt <= now {
        tx.assignments := tx.assignments[i := assignment.(status := OfferExpired)];
        return Err(Conflict);
      }
      if HasOtherActiveJob(db.State(), rider, id) {
        return Err(Conflict);
      }
      var accepted := AcceptIn(tx, i, rider);
      if accepted.Err? {
        return Err(accepted.error);
      }
      tx.Commit(db, None);
      return Ok(Done);
    }

    /** Rejects the i-th assignment inside a transaction; a job that was accepted goes back to the queue. */
    method RejectIn(tx: Transaction, i: nat, rider: RiderId) returns (result: Result<()>)
      requires i < |tx.assignments|
      modifies tx`row, tx`riders, tx`assignments
      ensures var rejected := RejectedJob(old(tx.JobNow()), i);
        if rejected.Ok? then
          && result == Ok(())
          && tx.JobNow() == rejected.value.job
          && tx.riders ==
             (if old(tx.assignments)[i].status.Accepted?
              then ReleaseRider(old(tx.riders), old(tx.row), tx.row)[rider := RiderStatus.Online] else old(tx.riders))
        else result == Err(rejected.error)
    {
      var assignment := tx.assignments[i];
      if !assignment.status.Offered? && !assignment.status.Accepted? {
        return Err(Conflict);
      }
      tx.assignments := tx.assignments[i := assignment.(status := AssignmentStatus.Rejected)];
      if assignment.status.Accepted? {
        if tx.row.status != RiderAssigned {
          return Err(BadRequest);
        }
        result := workflow.TransitionWithinTransaction(
          tx, WaitingForDispatch, Rider(rider), TransitionOptions(Some(RiderAssigned), None, true));
        tx.riders := tx.riders[rider := RiderStatus.Online];
        return;
      }
      return Ok(());
    }

    method Rejected(db: DeliveryDatabase, id: JobId, i: nat, rider: RiderId) returns (result: Result<Reply>)
      modifies db
      ensures Answers(old(db.State()), RejectOffer(id, i, rider), result, db.State())
    {
      if id !in db.jobs || i >= |db.jobs[id].assignments| {
        return Err(NotFound);
      }
      var tx := new Transaction(db, id);
      if tx.assignments[i].rider != rider {
        return Err(Forbidden);
      }
      var rejected := RejectIn(tx, i, rider);
      if rejected.Err? {
        return Err(rejected.error);
      }
      tx.Commit(db, None);
      return Ok(Done);
    }
  }

  class DeliveryOperationsService {
    const workflow: DeliveryWorkflowService

    constructor (workflow: DeliveryWorkflowService) {
      this.workflow := workflow;
    }

    method ChecklistSet(db: DeliveryDatabase, id: JobId, verified: bool) returns (result: Result<Reply>)
      modifies db
      ensures Answers(old(db.State()), Checklist(id, verified), result, db.State())
    {
      if id !in db.jobs {
        return Err(NotFound);
      }
      var tx := new Transaction(db, id);
      tx.pickup := tx.pickup.(checklistVerified := verified);
      tx.Commit(db, None);
      return Ok(Done);
    }

    method IssueIn(tx: Transaction, actor: Actor, kind: Pickup.PickupMethod, code: string, parcels: int, now: int)
      returns (result: Result<Reply>)
      modifies tx`pickup
      ensures Did(IssueChallenge(old(tx.JobNow()), actor, kind, code, parcels, now),
                  old(tx.JobNow()), old(tx.riders), result, tx.JobNow(), tx.riders)
    {
      if !OwnedBy(tx.JobNow(), actor) || !actor.StoreOwner? {
        return Err(Forbidden);
      }
      if tx.row.status != AtStore || tx.row.rider.None? || !tx.pickup.checklistVerified {
        return Err(BadRequest);
      }
      if tx.pickup.proof.Some? {
        return Err(Conflict);
      }
      tx.pickup := tx.pickup.(challenges := Pickup.SupersedePending(tx.pickup.challenges));
      var challenge := Pickup.Challenge(kind, code, actor.user, parcels, Pickup.Pending, 0, now + Pickup.PICKUP_TTL_MS);
      tx.pickup := tx.pickup.(challenges := tx.pickup.challenges + [challenge]);
      return Ok(Done);
    }

    method IssuePickupChallenge(db: DeliveryDatabase, id: JobId, actor: Actor, kind: Pickup.PickupMethod,
                                code: string, parcels: int, now: int)
      returns (result: Result<Reply>)
      modifies db
      ensures Answers(old(db.State()), ChallengePickup(id, actor, kind, code, parcels, now), result, db.State())
    {
      if !actor.StoreOwner? {
        return Err(Forbidden);
      }
      if kind.StoreConfirmedHandoff? {
        return Err(BadRequest);
      }
      if id !in db.jobs {
        return Err(NotFound);
      }
      var tx := new Transaction(db, id);
      result := IssueIn(tx, actor, kind, code, parcels, now);
      if result.Ok? {
        tx.Commit(db, None);
      }
      AnsweredByUpdate(old(db.State()), ChallengePickup(id, actor, kind, code, parcels, now),
                       result, tx.JobNow(), tx.riders, db.State());
    }

    /** Creates the proof and moves the job on; an existing proof is returned as it is. */
    method RecordProof(tx: Transaction, storeUser: UserId, parcels: int, challenge: Option<nat>)
      returns (result: Result<()>)
      modifies tx`row, tx`riders, tx`pickup
      ensures var recorded := RecordPickupProof(old(tx.JobNow()), storeUser, parcels, challenge);
        if recorded.Ok? then result == Ok(()) && tx.JobNow() == recorded.value && tx.riders == old(tx.riders)
        else result == Err(recorded.error)
    {
      if tx.row.rider.None? {
        return Err(BadRequest);
      }
      if tx.pickup.proof.Some? {
        return Ok(());
      }
      tx.pickup := tx.pickup.(proof := Some(Pickup.PickupProof(tx.row.rider.value, storeUser, parcels, challenge)));
      result := workflow.TransitionWithinTransaction(
        tx, PickupVerified, Admin, TransitionOptions(Some(AtStore), None, true));
    }

    method VerifyChallengeIn(tx: Transaction, actor: Actor, kind: Pickup.PickupMethod,
                             code: string, parcels: int, now: int) returns (result: Result<Reply>)
      modifies tx`row, tx`riders, tx`pickup
      ensures Did(VerifyChallenge(old(tx.JobNow()), actor, kind, code, parcels, now),
                  old(tx.JobNow()), old(tx.riders), result, tx.JobNow(), tx.riders)
    {
      if !CarriedBy(tx.JobNow(), actor) || !actor.Rider? {
        return Err(Forbidden);
      }
      if tx.row.status != AtStore || !tx.pickup.checklistVerified || kind.StoreConfirmedHandoff? {
        return Err(BadRequest);
      }
      var pending := Pickup.LatestPending(tx.pickup.challenges, kind);
      if pending.None? {
        return Err(NotFound);
      }
      var i := pending.value;
      var challenge := tx.pickup.challenges[i];
      if challenge.expiresAt <= now {
        tx.pickup := tx.pickup.(challenges := tx.pickup.challenges[i := challenge.(status := Pickup.Expired)]);
        return Ok(PickupRefused(challenge.attempts));
      }
      if challenge.parcels != parcels {
        return Err(BadRequest);
      }
      if challenge.code != code {
        var attempts := challenge.attempts + 1;
        var status := Pickup.Pending;
        if attempts >= Pickup.PICKUP_MAX_ATTEMPTS {
          status := Pickup.Failed;
        }
        tx.pickup := tx.pickup.(
          challenges := tx.pickup.challenges[i := challenge.(attempts := attempts, status := status)]);
        return Ok(PickupRefused(attempts));
      }
      var recorded := RecordProof(tx, challenge.issuedBy, parcels, Some(i));
      if recorded.Err? {
        return Err(recorded.error);
      }
      tx.pickup := tx.pickup.(challenges := tx.pickup.challenges[i := challenge.(status := Pickup.Used)]);
      return Ok(Done);
    }

    method VerifyPickupChallenge(db: DeliveryDatabase, id: JobId, actor: Actor, kind: Pickup.PickupMethod,
                                 code: string, parcels: int, now: int)
      returns (result: Result<Reply>)
      modifies db
      ensures Answers(old(db.State()), VerifyPickup(id, actor, kind, code, parcels, now), result, db.State())
    {
      if id !in db.jobs {
        return Err(NotFound);
      }
      var tx := new Transaction(db, id);
      result := VerifyChallengeIn(tx, actor, kind, code, parcels, now);
      if result.Ok? {
        tx.Commit(db, None);
      }
      AnsweredByUpdate(old(db.State()), VerifyPickup(id, actor, kind, code, parcels, now),
                       result, tx.JobNow(), tx.riders, db.State());
    }

    method ConfirmIn(tx: Transaction, actor: Actor, parcels: int) returns (result: Result<Reply>)
      modifies tx`row, tx`riders, tx`pickup
      ensures Did(ConfirmPickup(old(tx.JobNow()), actor, parcels),
                  old(tx.JobNow()), old(tx.riders), result, tx.JobNow(), tx.riders)
    {
      if !OwnedBy(tx.JobNow(), actor) || !actor.StoreOwner? {
        return Err(Forbidden);
      }
      if tx.row.status != AtStore || !tx.pickup.checklistVerified {
        return Err(BadRequest);
      }
      var recorded := RecordProof(tx, actor.user, parcels, None);
      if recorded.Err? {
        return Err(recorded.error);
      }
      return Ok(Done);
    }

    method ConfirmStorePickup(db: DeliveryDatabase, id: JobId, actor: Actor, parcels: int)
      returns (result: Result<Reply>)
      modifies db
      ensures Answers(old(db.State()), ConfirmHandoff(id, actor, parcels), result, db.State())
    {
      if !actor.StoreOwner? {
        return Err(Forbidden);
      }
      if id !in db.jobs {
        return Err(NotFound);
      }
      var tx := new Transaction(db, id);
      result := ConfirmIn(tx, actor, parcels);
      if result.Ok? {
        tx.Commit(db, None);
      }
      AnsweredByUpdate(old(db.State()), ConfirmHandoff(id, actor, parcels), result, tx.JobNow(), tx.riders, db.State());
    }

    method IssueDeliveryOtp(db: DeliveryDatabase, id: JobId, actor: Actor, code: string, key: Option<Key>, now: int)
      returns (result: Result<Reply>)
      modifies db
      ensures Answers(old(db.State()), SendOtp(id, actor, code, key, now), result, db.State())
    {
      if id !in db.jobs {
        return Err(NotFound);
      }
      var tx := new Transaction(db, id);
      if !CarriedBy(tx.JobNow(), actor) {
        return Err(Forbidden);
      }
      if tx.row.status != AtCustomer {
        return Err(BadRequest);
      }
      if key.Some? && key.value in db.keys {
        var existing := db.keys[key.value];
        if existing.job != id || existing.kind != OtpIssued {
          return Err(Conflict);
        }
        return Ok(Replayed);
      }
      tx.otp := tx.otp.(issues := DeliveryOtp.SupersedePending(tx.otp.issues));
      var issue := DeliveryOtp.OtpIssue(DeliveryOtp.Pending, code, now + DeliveryOtp.OTP_TTL_MS);
      tx.otp := tx.otp.(issues := tx.otp.issues + [issue]);
      tx.Commit(db, Use(key, id, OtpIssued));
      return Ok(Done);
    }

    /** Checks the code and writes what it found: an expiry, a numbered failure or a verified row. */
    method VerifyOtp(tx: Transaction, code: string, now: int) returns (verdict: DeliveryOtp.Verdict)
      modifies tx`otp
      ensures DeliveryOtp.Verification(tx.otp, verdict) == DeliveryOtp.Verify(old(tx.otp), code, now)
    {
      var pending := DeliveryOtp.LatestPending(tx.otp.issues);
      if pending.None? {
        return DeliveryOtp.NoActiveCode;
      }
      var i := pending.value;
      var issue := tx.otp.issues[i];
      if issue.expiresAt <= now {
        tx.otp := tx.otp.(issues := tx.otp.issues[i := issue.(status := DeliveryOtp.Failed)]);
        return DeliveryOtp.CodeExpired;
      }
      var attempts := |DeliveryOtp.AttemptsOn(tx.otp.failures, i)|;
      if attempts >= DeliveryOtp.OTP_MAX_ATTEMPTS {
        return DeliveryOtp.AttemptLimit(attempts);
      }
      if issue.code != code {
        var row := DeliveryOtp.OtpFailure(i, attempts + 1);
        if row !in tx.otp.failures {
          tx.otp := tx.otp.(failures := tx.otp.failures + [row]);
        }
        if attempts + 1 >= DeliveryOtp.OTP_MAX_ATTEMPTS {
          tx.otp := tx.otp.(issues := tx.otp.issues[i := issue.(status := DeliveryOtp.Failed)]);
        }
        return DeliveryOtp.WrongCode(attempts + 1);
      }
      if i !in tx.otp.verified {
        tx.otp := tx.otp.(verified := tx.otp.verified + [i]);
      }
      tx.otp := tx.otp.(issues := tx.otp.issues[i := issue.(status := DeliveryOtp.Completed)]);
      return DeliveryOtp.Verified(DeliveryOtp.Position(tx.otp.verified, i));
    }

    /** Passes the gate with a verified code: the cash must be in, then proof and transition are written. */
    method DeliverIn(tx: Transaction, actor: Actor, otpRow: nat) returns (result: Result<Reply>)
      modifies tx`row, tx`riders, tx`proof
      ensures Did(Deliver(old(tx.JobNow()), actor, otpRow),
                  old(tx.JobNow()), old(tx.riders), result, tx.JobNow(), tx.riders)
    {
      if tx.payment.Some? && tx.payment.value.kind.CashOnDelivery? {
        if tx.payment.value.status != Captured || tx.ledger.None?
          || tx.ledger.value.collected != tx.ledger.value.expected
        {
          return Err(BadRequest);
        }
      }
      if tx.row.rider.None? {
        return Err(BadRequest);
      }
      if tx.proof.Some? {
        return Err(Conflict);
      }
      tx.proof := Some(DeliveryProof(tx.row.rider.value, otpRow));
      var moved := workflow.TransitionWithinTransaction(
        tx, Delivered, actor, TransitionOptions(Some(AtCustomer), None, false));
      if moved.Err? {
        return Err(moved.error);
      }
      return Ok(Done);
    }

    method CompleteIn(tx: Transaction, actor: Actor, confirmed: bool, entered: Option<string>, now: int)
      returns (result: Result<Reply>)
      modifies tx`row, tx`riders, tx`otp, tx`proof
      ensures Did(CompleteDelivery(old(tx.JobNow()), actor, confirmed, entered, now),
                  old(tx.JobNow()), old(tx.riders), result, tx.JobNow(), tx.riders)
    {
      if !CarriedBy(tx.JobNow(), actor) {
        return Err(Forbidden);
      }
      if tx.row.status == Delivered {
        return Ok(Replayed);
      }
      if tx.row.status != AtCustomer || !confirmed || entered.None? {
        return Err(BadRequest);
      }
      var verdict := VerifyOtp(tx, entered.value, now);
      if !verdict.Verified? {
        return Ok(OtpRefused(verdict));
      }
      result := DeliverIn(tx, actor, verdict.row);
    }

    method Completed(db: DeliveryDatabase, id: JobId, actor: Actor, confirmed: bool, entered: Option<string>, now: int)
      returns (result: Result<Reply>)
      modifies db
      ensures Answers(old(db.State()), Complete(id, actor, confirmed, entered, now), result, db.State())
    {
      if id !in db.jobs {
        return Err(NotFound);
      }
      var tx := new Transaction(db, id);
      result := CompleteIn(tx, actor, confirmed, entered, now);
      if result.Ok? {
        tx.Commit(db, None);
      }
      AnsweredByUpdate(old(db.State()), Complete(id, actor, confirmed, entered, now),
                       result, tx.JobNow(), tx.riders, db.State());
    }

    method RecordFailureIn(tx: Transaction, actor: Actor, reason: FailureReason) returns (result: Result<Reply>)
      modifies tx`row, tx`riders, tx`decisions
      ensures Did(RecordFailure(old(tx.JobNow()), actor, reason),
                  old(tx.JobNow()), old(tx.riders), result, tx.JobNow(), tx.riders)
    {
      if !CarriedBy(tx.JobNow(), actor) {
        return Err(Forbidden);
      }
      if !IsFailable(tx.row.status) {
        return Err(BadRequest);
      }
      var moved := workflow.TransitionWithinTransaction(
        tx, DeliveryFailed, actor, TransitionOptions(Some(tx.row.status), None, false));
      if moved.Err? {
        return Err(moved.error);
      }
      var policy := Recommend(reason);
      tx.decisions := tx.decisions + [Decision(reason, policy, policy, Decided, false)];
      return Ok(Done);
    }

    method FailureRecorded(db: DeliveryDatabase, id: JobId, actor: Actor, reason: FailureReason, key: Option<Key>)
      returns (result: Result<Reply>)
      modifies db
      ensures Answers(old(db.State()), Fail(id, actor, reason, key), result, db.State())
    {
      if key.Some? && key.value in db.keys {
        AnsweredFromKey(db.State(), Fail(id, actor, reason, key));
        return Ok(Replayed);
      }
      if id !in db.jobs {
        AnsweredMissing(db.State(), Fail(id, actor, reason, key));
        return Err(NotFound);
      }
      var tx := new Transaction(db, id);
      result := RecordFailureIn(tx, actor, reason);
      if result.Ok? {
        tx.Commit(db, Use(key, id, OperationType.FailureRecorded));
      }
      AnsweredByUpdate(old(db.State()), Fail(id, actor, reason, key), result, tx.JobNow(), tx.riders, db.State());
    }

    /** Hands back the latest accepted assignment. */
    method HandBack(tx: Transaction)
      modifies tx`assignments
      ensures tx.assignments == Reassign(old(tx.assignments))
    {
      var i := |tx.assignments|;
      assert tx.assignments[..i] + tx.assignments[i..] == tx.assignments;
      assert tx.assignments[..i] == tx.assignments;
      while i > 0
        invariant 0 <= i <= |tx.assignments|
        invariant tx.assignments == old(tx.assignments)
        invariant Reassign(tx.assignments) == Reassign(tx.assignments[..i]) + tx.assignments[i..]
      {
        i := i - 1;
        var front := tx.assignments[..i + 1];
        assert front[..i] == tx.assignments[..i];
        if tx.assignments[i].status.Accepted? {
          assert SetAssignment(front, i, Reassigned) + tx.assignments[i + 1..]
              == SetAssignment(tx.assignments, i, Reassigned);
          tx.assignments := tx.assignments[i := tx.assignments[i].(status := Reassigned)];
          return;
        }
        assert [front[i]] + tx.assignments[i + 1..] == tx.assignments[i..];
      }
      assert tx.assignments[0..] == tx.assignments;
    }

    method TakeRiderOff(tx: Transaction) returns (result: Result<()>)
      modifies tx`row, tx`riders, tx`assignments
      ensures var carried := CarryOut(old(tx.JobNow()), ReassignRider);
        if carried.Ok? then
          && result == Ok(())
          && tx.JobNow() == carried.value
          && tx.riders == ReleaseRider(old(tx.riders), old(tx.row), tx.row)
        else result == Err(carried.error)
    {
      if tx.ledger.Some? && tx.ledger.value.holding > 0 {
        return Err(BadRequest);
      }
      HandBack(tx);
      result := workflow.TransitionWithinTransaction(
        tx, WaitingForDispatch, Admin, TransitionOptions(Some(DeliveryFailed), None, true));
    }

    method CancelAndRefundIn(tx: Transaction) returns (result: Result<()>)
      modifies tx`row, tx`riders, tx`payment
      ensures var carried := CarryOut(old(tx.JobNow()), CancelAndRefund);
        if carried.Ok? then
          && result == Ok(())
          && tx.JobNow() == carried.value
          && tx.riders == ReleaseRider(old(tx.riders), old(tx.row), tx.row)
        else result == Err(carried.error)
    {
      if tx.ledger.Some? && tx.ledger.value.holding > 0 {
        return Err(BadRequest);
      }
      if tx.payment.Some? && tx.payment.value.kind.Online? && tx.payment.value.status.Captured? {
        var payment := tx.payment.value;
        if !HasFullRefund(payment) {
          payment := payment.(refunds := payment.refunds + [Refund(payment.amount, RefundRequested)]);
        }
        tx.payment := Some(payment.(status := RefundPending));
      }
      result := workflow.TransitionWithinTransaction(
        tx, Cancelled, Admin, TransitionOptions(Some(DeliveryFailed), None, true));
    }

    /** Carries out an action inside a transaction; its decision is updated afterwards. */
    method Applied(tx: Transaction, action: Action) returns (result: Result<()>)
      modifies tx`row, tx`riders, tx`assignments, tx`payment
      ensures var carried := CarryOut(old(tx.JobNow()), action);
        if carried.Ok? then
          && result == Ok(())
          && tx.JobNow() == carried.value
          && tx.riders == ReleaseRider(old(tx.riders), old(tx.row), tx.row)
        else result == Err(carried.error)
    {
      var expected := TransitionOptions(Some(DeliveryFailed), None, true);
      match action {
        case RetryDelivery =>
          result := workflow.TransitionWithinTransaction(tx, OutForDelivery, Admin, expected);
        case ReassignRider =>
          result := TakeRiderOff(tx);
        case ReturnToStore =>
          result := workflow.TransitionWithinTransaction(tx, ReturningToStore, Admin, expected);
        case CancelAndRefund =>
          result := CancelAndRefundIn(tx);
        case EscalateToAdmin =>
          result := Ok(());
      }
    }

    method ResolveIn(tx: Transaction, requested: Option<Action>, hasOverrideReason: bool)
      returns (result: Result<Reply>)
      modifies tx`row, tx`riders, tx`assignments, tx`payment, tx`decisions
      ensures Did(ResolveFailure(old(tx.JobNow()), requested, hasOverrideReason),
                  old(tx.JobNow()), old(tx.riders), result, tx.JobNow(), tx.riders)
    {
      if tx.row.status != DeliveryFailed {
        return Err(BadRequest);
      }
      var open := LatestOpen(tx.decisions);
      if open.None? {
        return Err(NotFound);
      }
      var decision := tx.decisions[open.value];
      var action := decision.decided;
      if requested.Some? {
        action := requested.value;
      }
      var overridden := action != decision.recommended;
      if overridden && !hasOverrideReason {
        return Err(BadRequest);
      }
      var applied := Applied(tx, action);
      if applied.Err? {
        return Err(applied.error);
      }
      var status := if action.EscalateToAdmin? then InProgress else DecisionStatus.Completed;
      var resolved := decision.(decided := action, status := status, overridden := overridden);
      tx.decisions := tx.decisions[open.value := resolved];
      return Ok(Done);
    }

    method Resolved(db: DeliveryDatabase, id: JobId, actor: Actor, requested: Option<Action>,
                    hasOverrideReason: bool, key: Option<Key>)
      returns (result: Result<Reply>)
      modifies db
      ensures Answers(old(db.State()), Resolve(id, actor, requested, hasOverrideReason, key), result, db.State())
    {
      if !actor.Admin? {
        return Err(Forbidden);
      }
      if key.Some? && key.value in db.keys {
        AnsweredFromKey(db.State(), Resolve(id, actor, requested, hasOverrideReason, key));
        return Ok(Replayed);
      }
      if id !in db.jobs {
        AnsweredMissing(db.State(), Resolve(id, actor, requested, hasOverrideReason, key));
        return Err(NotFound);
      }
      var tx := new Transaction(db, id);
      result := ResolveIn(tx, requested, hasOverrideReason);
      if result.Ok? {
        tx.Commit(db, Use(key, id, ResolutionApplied));
      }
      AnsweredByUpdate(old(db.State()), Resolve(id, actor, requested, hasOverrideReason, key),
                       result, tx.JobNow(), tx.riders, db.State());
    }

    method StartReturnIn(tx: Transaction, actor: Actor) returns (result: Result<Reply>)
      modifies tx`row, tx`riders, tx`decisions
      ensures Did(StartReturn(old(tx.JobNow()), actor),
                  old(tx.JobNow()), old(tx.riders), result, tx.JobNow(), tx.riders)
    {
      if !CarriedBy(tx.JobNow(), actor) {
        return Err(Forbidden);
      }
      if tx.row.status != DeliveryFailed {
        return Err(BadRequest);
      }
      var open := LatestOpen(tx.decisions);
      if open.None? || tx.decisions[open.value].decided != ReturnToStore {
        return Err(BadRequest);
      }
      var moved := workflow.TransitionWithinTransaction(
        tx, ReturningToStore, actor, TransitionOptions(Some(DeliveryFailed), None, false));
      if moved.Err? {
        return Err(moved.error);
      }
      tx.decisions := tx.decisions[open.value := tx.decisions[open.value].(status := DecisionStatus.Completed)];
      return Ok(Done);
    }

    method ReturnBegun(db: DeliveryDatabase, id: JobId, actor: Actor, key: Option<Key>) returns (result: Result<Reply>)
      modifies db
      ensures Answers(old(db.State()), BeginReturn(id, actor, key), result, db.State())
    {
      if key.Some? && key.value in db.keys {
        AnsweredFromKey(db.State(), BeginReturn(id, actor, key));
        return Ok(Replayed);
      }
      if id !in db.jobs {
        AnsweredMissing(db.State(), BeginReturn(id, actor, key));
        return Err(NotFound);
      }
      var tx := new Transaction(db, id);
      result := StartReturnIn(tx, actor);
      if result.Ok? {
        tx.Commit(db, Use(key, id, ReturnStarted));
      }
      AnsweredByUpdate(old(db.State()), BeginReturn(id, actor, key), result, tx.JobNow(), tx.riders, db.State());
    }

    method ConfirmReturnIn(tx: Transaction, actor: Actor) returns (result: Result<Reply>)
      modifies tx`row, tx`riders
      ensures Did(ConfirmReturn(old(tx.JobNow()), actor),
                  old(tx.JobNow()), old(tx.riders), result, tx.JobNow(), tx.riders)
    {
      if !OwnedBy(tx.JobNow(), actor) {
        return Err(Forbidden);
      }
      if tx.row.status != ReturningToStore {
        return Err(BadRequest);
      }
      var moved := workflow.TransitionWithinTransaction(
        tx, ReturnedToStore, actor, TransitionOptions(Some(ReturningToStore), None, true));
      if moved.Err? {
        return Err(moved.error);
      }
      return Ok(Done);
    }

    method ReturnReceived(db: DeliveryDatabase, id: JobId, actor: Actor, key: Option<Key>)
      returns (result: Result<Reply>)
      modifies db
      ensures Answers(old(db.State()), ReceiveReturn(id, actor, key), result, db.State())
    {
      if key.Some? && key.value in db.keys {
        AnsweredFromKey(db.State(), ReceiveReturn(id, actor, key));
        return Ok(Replayed);
      }
      if id !in db.jobs {
        AnsweredMissing(db.State(), ReceiveReturn(id, actor, key));
        return Err(NotFound);
      }
      var tx := new Transaction(db, id);
      result := ConfirmReturnIn(tx, actor);
      if result.Ok? {
        tx.Commit(db, Use(key, id, ReturnConfirmed));
      }
      AnsweredByUpdate(old(db.State()), ReceiveReturn(id, actor, key), result, tx.JobNow(), tx.riders, db.State());
    }

    method CollectIn(tx: Transaction, actor: Actor, amount: int) returns (result: Result<Reply>)
      modifies tx`payment, tx`ledger, tx`collected
      ensures Did(CollectCod(old(tx.JobNow()), actor, amount),
                  old(tx.JobNow()), old(tx.riders), result, tx.JobNow(), tx.riders)
    {
      if !CarriedBy(tx.JobNow(), actor) {
        return Err(Forbidden);
      }
      if tx.row.status != OutForDelivery && tx.row.status != AtCustomer {
        return Err(BadRequest);
      }
      if tx.payment.None? || !tx.payment.value.kind.CashOnDelivery? || amount != tx.payment.value.amount {
        return Err(BadRequest);
      }
      if tx.payment.value.status != PendingCod && tx.payment.value.status != Captured {
        return Err(BadRequest);
      }
      if tx.ledger.None? {
        if tx.payment.value.amount <= 0 {
          return Err(BadRequest);
        }
        tx.ledger := Some(Open(tx.row.rider, tx.payment.value.amount));
      }
      if tx.ledger.value.collected > 0 {
        return Err(Conflict);
      }
      if tx.payment.value.status != Captured {
        tx.payment := Some(tx.payment.value.(status := Captured));
      }
      var ledger := tx.ledger.value.(
        rider := tx.row.rider, collected := amount, holding := amount, variance := 0, status := HeldByRider);
      tx.ledger := Some(ledger.(entries := ledger.entries + [CodEntry(CollectedEntry, amount, amount, 0)]));
      tx.collected := true;
      return Ok(Done);
    }

    method CodCollected(db: DeliveryDatabase, id: JobId, actor: Actor, amount: int, key: Option<Key>)
      returns (result: Result<Reply>)
      modifies db
      ensures Answers(old(db.State()), CollectCash(id, actor, amount, key), result, db.State())
    {
      if amount < 1 {
        return Err(BadRequest);
      }
      var chosen := if key.Some? then key.value else CollectionKey(id);
      if chosen in db.keys || (id in db.jobs && db.jobs[id].collected) {
        return Ok(Replayed);
      }
      if id !in db.jobs {
        return Err(NotFound);
      }
      var tx := new Transaction(db, id);
      result := CollectIn(tx, actor, amount);
      if result.Ok? {
        tx.Commit(db, Use(Some(chosen), id, OperationType.CodCollected));
      }
      AnsweredByUpdate(old(db.State()), CollectCash(id, actor, amount, key),
                       result, tx.JobNow(), tx.riders, db.State());
    }

    method SettleIn(tx: Transaction, actor: Actor, deposit: DepositRequest) returns (result: Result<Reply>)
      modifies tx`ledger
      ensures Did(SettleCod(old(tx.JobNow()), actor, deposit),
                  old(tx.JobNow()), old(tx.riders), result, tx.JobNow(), tx.riders)
    {
      if !OwnedBy(tx.JobNow(), actor) {
        return Err(Forbidden);
      }
      if tx.payment.None? || !tx.payment.value.kind.CashOnDelivery? || tx.payment.value.status != Captured {
        return Err(BadRequest);
      }
      if !tx.collected || tx.ledger.None? {
        return Err(BadRequest);
      }
      var ledger := tx.ledger.value;
      if ledger.status.Settled? || ledger.status.VarianceReview? {
        return Err(Conflict);
      }
      if deposit.amount > ledger.holding {
        return Err(BadRequest);
      }
      var deposited := ledger.deposited + deposit.amount;
      var holding := ledger.holding - deposit.amount;
      var variance := ledger.expected - deposited;
      if deposit.finalize && variance != 0 && !deposit.hasVarianceReason {
        return Err(BadRequest);
      }
      ledger := ledger.(deposited := deposited, holding := holding, reference := Some(deposit.reference));
      if deposit.finalize {
        ledger := ledger.(variance := variance, status := if variance == 0 then Settled else VarianceReview);
      } else {
        ledger := ledger.(variance := 0, status := if holding == 0 then Settled else PartiallyDeposited);
      }
      ledger := ledger.(entries := ledger.entries + [CodEntry(DepositedEntry, deposit.amount, holding, deposited)]);
      if deposit.finalize && variance != 0 {
        var size := if variance < 0 then -variance else variance;
        ledger := ledger.(entries := ledger.entries + [CodEntry(VarianceEntry, size, holding, deposited)]);
      } else {
        assert ledger.entries + [] == ledger.entries;
      }
      assert Deposit(tx.ledger.value, deposit) == Ok(ledger);
      tx.ledger := Some(ledger);
      return Ok(Done);
    }

    method CodSettled(db: DeliveryDatabase, id: JobId, actor: Actor, deposit: DepositRequest, key: Option<Key>)
      returns (result: Result<Reply>)
      modifies db
      ensures Answers(old(db.State()), SettleCash(id, actor, deposit, key), result, db.State())
    {
      if deposit.amount < 1 {
        return Err(BadRequest);
      }
      var chosen := if key.Some? then key.value else SettlementKey(id, deposit.reference);
      if chosen in db.keys {
        return Ok(Replayed);
      }
      if id !in db.jobs {
        return Err(NotFound);
      }
      var tx := new Transaction(db, id);
      result := SettleIn(tx, actor, deposit);
      if result.Ok? {
        if ReferenceTaken(db.State(), id, deposit.reference) {
          return Err(Conflict);
        }
        tx.Commit(db, Use(Some(chosen), id, OperationType.CodSettled));
      }
    }
  }
}
