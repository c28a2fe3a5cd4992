/**
 * The delivery protocol as transactions on one database value. A request either
 * commits a new database or is rolled back with the database unchanged.
 */
module DeliveryProtocol {
  import opened Common
  import opened DeliveryStatus
  import opened Workflow
  import opened Payments
  import opened CodLedger
  import opened FailureDecision
  import Pickup
  import DeliveryOtp

  type JobId = nat

  datatype RiderStatus = Online | Offline | Busy

  datatype AssignmentStatus = Offered | Accepted | Rejected | OfferExpired | Reassigned

  datatype Assignment = Assignment(rider: RiderId, status: AssignmentStatus, expiresAt: int)

  /** A delivery proof points at the row that verified the customer's code. */
  datatype DeliveryProof = DeliveryProof(rider: RiderId, otpRow: nat)

  /** A job row together with the rows of other tables that carry its id. */
  datatype Job = Job(
    row: JobRow,
    storeOwner: UserId,
    payment: Option<Payment>,
    assignments: seq<Assignment>,
    pickup: Pickup.PickupFile,
    otp: DeliveryOtp.OtpFile,
    proof: Option<DeliveryProof>,
    decisions: seq<Decision>,
    ledger: Option<Ledger>,
    collected: bool)

  /** Idempotency keys: chosen by a client, or spelled by the service from its arguments. */
  datatype Key =
    | ClientKey(text: string)
    | CollectionKey(job: JobId)
    | SettlementKey(job: JobId, reference: string)

  datatype OperationType =
    | OtpIssued
    | FailureRecorded
    | ResolutionApplied
    | ReturnStarted
    | ReturnConfirmed
    | CodCollected
    | CodSettled

  datatype Operation = Operation(job: JobId, kind: OperationType)

  datatype Db = Db(jobs: map<JobId, Job>, riders: map<RiderId, RiderStatus>, keys: map<Key, Operation>)

  datatype Reply =
    | Done
    | Replayed
    | PickupRefused(attempts: int)
    | OtpRefused(verdict: DeliveryOtp.Verdict)

  datatype Outcome = Committed(db: Db, reply: Reply) | RolledBack(error: Error)

  datatype Saved = Saved(job: Job, reply: Reply)

  // ------------------------------------------------------------------ roles

  predicate CarriedBy(job: Job, actor: Actor) {
    actor.Admin? || (actor.Rider? && job.row.rider == Some(actor.rider))
  }

  predicate OwnedBy(job: Job, actor: Actor) {
    actor.Admin? || (actor.StoreOwner? && actor.user == job.storeOwner)
  }

  // --------------------------------------------------------------- creation

  predicate IsCod(payment: Option<Payment>) {
    payment.Some? && payment.value.kind.CashOnDelivery?
  }

  /** A cash job gets its ledger once; the table refuses a ledger that expects nothing. */
  function EnsureLedger(job: Job): Result<Job> {
    if job.ledger.Some? || !IsCod(job.payment) then Ok(job)
    else if job.payment.value.amount <= 0 then Err(BadRequest)
    else Ok(job.(ledger := Some(Open(job.row.rider, job.payment.value.amount))))
  }

  function PackedJob(storeOwner: UserId, payment: Option<Payment>): Job {
    Job(FRESH_ROW, storeOwner, payment, [], Pickup.PickupFile(false, [], None), DeliveryOtp.NO_OTP, None, [], None,
        false)
  }

  /** Creates the job of a packed order that has no rider, or completes the one it has. */
  function CreateJob(db: Db, id: JobId, actor: Actor, storeOwner: UserId, payment: Option<Payment>): Outcome {
    if actor.StoreOwner? && actor.user != storeOwner then RolledBack(Forbidden)
    else
      var base := if id in db.jobs then db.jobs[id] else PackedJob(storeOwner, payment);
      var ready := EnsureLedger(base);
      if ready.Err? then RolledBack(ready.error)
      else Committed(db.(jobs := db.jobs[id := ready.value]), if id in db.jobs then Replayed else Done)
  }

  // --------------------------------------------------------------- dispatch

  predicate IsOpen(assignment: Assignment) {
    assignment.status.Offered? || assignment.status.Accepted?
  }

  predicate HasOpen(assignments: seq<Assignment>) {
    exists i :: 0 <= i < |assignments| && IsOpen(assignments[i])
  }

  predicate IsCarrying(row: JobRow, rider: RiderId) {
    row.rider == Some(rider) && IsActive(row.status)
  }

  predicate HasActiveJob(db: Db, rider: RiderId) {
    exists id :: id in db.jobs && IsCarrying(db.jobs[id].row, rider)
  }

  predicate HasOtherActiveJob(db: Db, rider: RiderId, except: JobId) {
    exists id :: id in db.jobs && id != except && IsCarrying(db.jobs[id].row, rider)
  }

  /** Offers overdue at `now` become EXPIRED. */
  function ExpireOverdue(assignments: seq<Assignment>, now: int): (after: seq<Assignment>)
    ensures |after| == |assignments|
    ensures forall i :: 0 <= i < |after| ==>
      after[i] == if assignments[i].status.Offered? && assignments[i].expiresAt < now
                  then assignments[i].(status := OfferExpired) else assignments[i]
  {
    seq(|assignments|, i requires 0 <= i < |assignments| =>
      if assignments[i].status.Offered? && assignments[i].expiresAt < now
      then assignments[i].(status := OfferExpired) else assignments[i])
  }

  function OfferSeconds(requested: int): (seconds: int)
    ensures 15 <= seconds <= 300
    ensures 15 <= requested <= 300 ==> seconds == requested
    ensures requested == 0 ==> seconds == 60
  {
    Max(15, Min(300, if requested == 0 then 60 else requested))
  }

  function Offer(db: Db, id: JobId, rider: RiderId, actor: Actor, seconds: int, now: int): Outcome {
    if id !in db.jobs then RolledBack(NotFound)
    else
      var job := db.jobs[id];
      if !OwnedBy(job, actor) then RolledBack(Forbidden)
      else if job.row.status != WaitingForDispatch || job.row.rider.Some? then RolledBack(Conflict)
      else if rider !in db.riders then RolledBack(NotFound)
      else if db.riders[rider] != RiderStatus.Online then RolledBack(Conflict)
      else if HasActiveJob(db, rider) then RolledBack(Conflict)
      else
        var swept := ExpireOverdue(job.assignments, now);
        if HasOpen(swept) then RolledBack(Conflict)
        else
          var offer := Assignment(rider, Offered, now + OfferSeconds(seconds) * 1000);
          Committed(db.(jobs := db.jobs[id := job.(assignments := swept + [offer])]), Done)
  }

  function SetAssignment(assignments: seq<Assignment>, i: nat, status: AssignmentStatus): seq<Assignment>
    requires i < |assignments|
  {
    assignments[i := assignments[i].(status := status)]
  }

  /** The job half of accepting its i-th assignment. */
  function AcceptedJob(job: Job, i: nat): Result<Job>
    requires i < |job.assignments|
  {
    var rider := job.assignments[i].rider;
    var row :- Transition(job.row, job.storeOwner, RiderAssigned, Rider(rider),
                          TransitionOptions(Some(WaitingForDispatch), Some(rider), true));
    Ok(job.(
      row := row,
      assignments := SetAssignment(job.assignments, i, Accepted),
      ledger := if job.ledger.Some? then Some(Repoint(job.ledger.value, rider)) else None))
  }

  function Accept(db: Db, id: JobId, i: nat, rider: RiderId, now: int): Outcome {
    if id !in db.jobs || i >= |db.jobs[id].assignments| then RolledBack(NotFound)
    else
      var job := db.jobs[id];
      var offer := job.assignments[i];
      if offer.rider != rider then RolledBack(Forbidden)
      else if !offer.status.Offered? then RolledBack(Conflict)
      else if offer.expiresAt <= now then RolledBack(Conflict)
      else if HasOtherActiveJob(db, rider, id) then RolledBack(Conflict)
      else
        var accepted := AcceptedJob(job, i);
        if accepted.Err? then RolledBack(accepted.error)
        else
          Committed(db.(jobs := db.jobs[id := accepted.value], riders := db.riders[rider := Busy]), Done)
  }

  function RejectedJob(job: Job, i: nat): Result<Saved>
    requires i < |job.assignments|
  {
    var rejected := job.(assignments := SetAssignment(job.assignments, i, Rejected));
    if !IsOpen(job.assignments[i]) then Err(Conflict)
    else if job.assignments[i].status.Offered? then Ok(Saved(rejected, Done))
    else if job.row.status != RiderAssigned then Err(BadRequest)
    else
      var row :- Move(job.row, RiderAssigned, WaitingForDispatch);
      Ok(Saved(rejected.(row := row), Done))
  }

  function Reject(db: Db, id: JobId, i: nat, rider: RiderId): Outcome {
    if id !in db.jobs || i >= |db.jobs[id].assignments| then RolledBack(NotFound)
    else if db.jobs[id].assignments[i].rider != rider then RolledBack(Forbidden)
    else
      var saved := Save(db, id, RejectedJob(db.jobs[id], i), None);
      if saved.Committed? && db.jobs[id].assignments[i].status.Accepted?
      then saved.(db := saved.db.(riders := saved.db.riders[rider := RiderStatus.Online]))
      else saved
  }

  /** The worker sweeps one job's overdue offers. */
  function SweepOffers(job: Job, now: int): Result<Saved> {
    Ok(Saved(job.(assignments := ExpireOverdue(job.assignments, now)), Done))
  }

  // ----------------------------------------------------------------- travel

  /** The four legs a rider reports while carrying a job. */
  datatype Leg = LeaveForStore | ReachStore | LeaveStore | ReachCustomer

  function Destination(leg: Leg): JobStatus {
    match leg
    case LeaveForStore => EnRouteToStore
    case ReachStore => AtStore
    case LeaveStore => OutForDelivery
    case ReachCustomer => AtCustomer
  }

  function Travel(job: Job, leg: Leg, rider: RiderId): Result<Saved> {
    var row :- Transition(job.row, job.storeOwner, Destination(leg), Rider(rider),
                          TransitionOptions(None, None, false));
    Ok(Saved(job.(row := row), Done))
  }

  // ----------------------------------------------------------------- pickup

  function SetChecklist(job: Job, verified: bool): Result<Saved> {
    Ok(Saved(job.(pickup := job.pickup.(checklistVerified := verified)), Done))
  }

  function IssueChallenge(job: Job, actor: Actor, kind: Pickup.PickupMethod, code: string, parcels: int, now: int)
    : Result<Saved>
  {
    if !OwnedBy(job, actor) || !actor.StoreOwner? then Err(Forbidden)
    else if job.row.status != AtStore || job.row.rider.None? then Err(BadRequest)
    else if !job.pickup.checklistVerified then Err(BadRequest)
    else if job.pickup.proof.Some? then Err(Conflict)
    else Ok(Saved(job.(pickup := Pickup.Issue(job.pickup, kind, code, actor.user, parcels, now)), Done))
  }

  /** Records the handoff and moves the job on, unless the job already has its proof. */
  function RecordPickupProof(job: Job, storeUser: UserId, parcels: int, challenge: Option<nat>): Result<Job> {
    if job.row.rider.None? then Err(BadRequest)
    else if job.pickup.proof.Some? then Ok(job)
    else
      var row :- Move(job.row, AtStore, PickupVerified);
      var proof := Pickup.PickupProof(job.row.rider.value, storeUser, parcels, challenge);
      Ok(job.(row := row, pickup := job.pickup.(proof := Some(proof))))
  }

  function VerifyChallenge(job: Job, actor: Actor, kind: Pickup.PickupMethod, code: string, parcels: int, now: int)
    : Result<Saved>
  {
    if !CarriedBy(job, actor) || !actor.Rider? then Err(Forbidden)
    else if job.row.status != AtStore then Err(BadRequest)
    else if !job.pickup.checklistVerified then Err(BadRequest)
    else if kind.StoreConfirmedHandoff? then Err(BadRequest)
    else
      var pending := Pickup.LatestPending(job.pickup.challenges, kind);
      if pending.None? then Err(NotFound)
      else
        var i := pending.value;
        var challenge := job.pickup.challenges[i];
        if challenge.expiresAt <= now then
          Ok(Saved(job.(pickup := Pickup.SetStatus(job.pickup, i, Pickup.Expired)), PickupRefused(challenge.attempts)))
        else if challenge.parcels != parcels then Err(BadRequest)
        else if challenge.code != code then
          Ok(Saved(job.(pickup := Pickup.CountAttempt(job.pickup, i)), PickupRefused(challenge.attempts + 1)))
        else
          var recorded :- RecordPickupProof(job, challenge.issuedBy, parcels, Some(i));
          Ok(Saved(recorded.(pickup := recorded.pickup.(
            challenges := recorded.pickup.challenges[i := challenge.(status := Pickup.Used)])), Done))
  }

  function ConfirmPickup(job: Job, actor: Actor, parcels: int): Result<Saved> {
    if !OwnedBy(job, actor) || !actor.StoreOwner? then Err(Forbidden)
    else if job.row.status != AtStore then Err(BadRequest)
    else if !job.pickup.checklistVerified then Err(BadRequest)
    else
      var recorded :- RecordPickupProof(job, actor.user, parcels, None);
      Ok(Saved(recorded, Done))
  }

  // --------------------------------------------------------------- delivery

  function IssueOtp(db: Db, id: JobId, actor: Actor, code: string, key: Option<Key>, now: int): Outcome {
    if id !in db.jobs then RolledBack(NotFound)
    else
      var job := db.jobs[id];
      if !CarriedBy(job, actor) then RolledBack(Forbidden)
      else if job.row.status != AtCustomer then RolledBack(BadRequest)
      else if IsUsed(db, key) then
        if db.keys[key.value] != Operation(id, OtpIssued) then RolledBack(Conflict) else Committed(db, Replayed)
      else
        Save(db, id, Ok(Saved(job.(otp := DeliveryOtp.Issue(job.otp, code, now)), Done)), Use(key, id, OtpIssued))
  }

  predicate CashIsIn(job: Job) {
    IsCod(job.payment) ==>
      && job.payment.value.status.Captured?
      && job.ledger.Some?
      && job.ledger.value.collected == job.ledger.value.expected
  }

  /** What a verified code lets through the gate. */
  function Deliver(job: Job, actor: Actor, otpRow: nat): Result<Saved> {
    if !CashIsIn(job) then Err(BadRequest)
    else if job.row.rider.None? then Err(BadRequest)
    else if job.proof.Some? then Err(Conflict)
    else
      var row :- Transition(job.row, job.storeOwner, Delivered, actor,
                            TransitionOptions(Some(AtCustomer), None, false));
      Ok(Saved(job.(row := row, proof := Some(DeliveryProof(job.row.rider.value, otpRow))), Done))
  }

  function CompleteDelivery(job: Job, actor: Actor, confirmed: bool, entered: Option<string>, now: int): Result<Saved> {
    if !CarriedBy(job, actor) then Err(Forbidden)
    else if job.row.status == Delivered then Ok(Saved(job, Replayed))
    else if job.row.status != AtCustomer then Err(BadRequest)
    else if !confirmed || entered.None? then Err(BadRequest)
    else
      var checked := DeliveryOtp.Verify(job.otp, entered.value, now);
      if !checked.verdict.Verified? then Ok(Saved(job.(otp := checked.otp), OtpRefused(checked.verdict)))
      else Deliver(job.(otp := checked.otp), actor, checked.verdict.row)
  }

  // --------------------------------------------------------------- failures

  function RecordFailure(job: Job, actor: Actor, reason: FailureReason): Result<Saved> {
    if !CarriedBy(job, actor) then Err(Forbidden)
    else if !IsFailable(job.row.status) then Err(BadRequest)
    else
      var row :- Transition(job.row, job.storeOwner, DeliveryFailed, actor,
                            TransitionOptions(Some(job.row.status), None, false));
      Ok(Saved(job.(row := row, decisions := job.decisions + [Decide(reason)]), Done))
  }

  /** The latest accepted assignment is handed back. */
  function Reassign(assignments: seq<Assignment>): (after: seq<Assignment>)
    ensures |after| == |assignments|
  {
    if assignments == [] then []
    else
      var last := |assignments| - 1;
      if assignments[last].status.Accepted? then SetAssignment(assignments, last, Reassigned)
      else Reassign(assignments[..last]) + [assignments[last]]
  }

  predicate HoldsCash(job: Job) {
    job.ledger.Some? && job.ledger.value.holding > 0
  }

  /** What an action does to the job, before its decision is updated. */
  function CarryOut(job: Job, action: Action): Result<Job> {
    match action
    case RetryDelivery =>
      var row :- Move(job.row, DeliveryFailed, OutForDelivery);
      Ok(job.(row := row))
    case ReassignRider =>
      if HoldsCash(job) then Err(BadRequest)
      else
        var row :- Move(job.row, DeliveryFailed, WaitingForDispatch);
        Ok(job.(row := row, assignments := Reassign(job.assignments)))
    case ReturnToStore =>
      var row :- Move(job.row, DeliveryFailed, ReturningToStore);
      Ok(job.(row := row))
    case CancelAndRefund =>
      if HoldsCash(job) then Err(BadRequest)
      else
        var row :- Move(job.row, DeliveryFailed, Cancelled);
        Ok(job.(
          row := row,
          payment := if job.payment.Some? then Some(RefundFailedDelivery(job.payment.value)) else None))
    case EscalateToAdmin => Ok(job)
  }

  function ResolveFailure(job: Job, requested: Option<Action>, hasOverrideReason: bool): Result<Saved> {
    if job.row.status != DeliveryFailed then Err(BadRequest)
    else
      var open := LatestOpen(job.decisions);
      if open.None? then Err(NotFound)
      else
        var decision := job.decisions[open.value];
        var action := if requested.Some? then requested.value else decision.decided;
        if action != decision.recommended && !hasOverrideReason then Err(BadRequest)
        else
          var moved :- CarryOut(job, action);
          Ok(Saved(moved.(decisions := job.decisions[open.value := ApplyAction(decision, action)]), Done))
  }

  function StartReturn(job: Job, actor: Actor): Result<Saved> {
    if !CarriedBy(job, actor) then Err(Forbidden)
    else if job.row.status != DeliveryFailed then Err(BadRequest)
    else
      var open := LatestOpen(job.decisions);
      if open.None? || job.decisions[open.value].decided != ReturnToStore then Err(BadRequest)
      else
        var row :- Transition(job.row, job.storeOwner, ReturningToStore, actor,
                              TransitionOptions(Some(DeliveryFailed), None, false));
        var closed := job.decisions[open.value].(status := DecisionStatus.Completed);
        Ok(Saved(job.(row := row, decisions := job.decisions[open.value := closed]), Done))
  }

  function ConfirmReturn(job: Job, actor: Actor): Result<Saved> {
    if !OwnedBy(job, actor) then Err(Forbidden)
    else if job.row.status != ReturningToStore then Err(BadRequest)
    else
      var row :- Move(job.row, ReturningToStore, ReturnedToStore);
      Ok(Saved(job.(row := row), Done))
  }

  // ------------------------------------------------------------------- cash

  function CollectCod(job: Job, actor: Actor, amount: int): Result<Saved> {
    if !CarriedBy(job, actor) then Err(Forbidden)
    else if job.row.status != OutForDelivery && job.row.status != AtCustomer then Err(BadRequest)
    else if !IsCod(job.payment) then Err(BadRequest)
    else if amount != job.payment.value.amount then Err(BadRequest)
    else if job.payment.value.status != PendingCod && job.payment.value.status != Captured then Err(BadRequest)
    else
      var ready :- EnsureLedger(job);
      if ready.ledger.value.collected > 0 then Err(Conflict)
      else
        Ok(Saved(ready.(
          payment := Some(ready.payment.value.(status := Captured)),
          ledger := Some(Collect(ready.ledger.value, ready.row.rider, amount)),
          collected := true), Done))
  }

  function SettleCod(job: Job, actor: Actor, request: DepositRequest): Result<Saved> {
    if !OwnedBy(job, actor) then Err(Forbidden)
    else if !IsCod(job.payment) then Err(BadRequest)
    else if job.payment.value.status != Captured then Err(BadRequest)
    else if !job.collected then Err(BadRequest)
    else if job.ledger.None? then Err(BadRequest)
    else
      var settled :- Deposit(job.ledger.value, request);
      Ok(Saved(job.(ledger := Some(settled)), Done))
  }

  /** Settlement references are unique over all ledgers. */
  predicate ReferenceTaken(db: Db, id: JobId, reference: string) {
    exists other :: other in db.jobs && other != id
      && db.jobs[other].ledger.Some? && db.jobs[other].ledger.value.reference == Some(reference)
  }

  // ------------------------------------------------------------ transactions

  predicate IsUsed(db: Db, key: Option<Key>) {
    key.Some? && key.value in db.keys
  }

  /** The operation row a request leaves behind, when its key can be met again. */
  datatype KeyUse = KeyUse(key: Key, operation: Operation)

  function Use(key: Option<Key>, id: JobId, kind: OperationType): Option<KeyUse> {
    if key.Some? then Some(KeyUse(key.value, Operation(id, kind))) else None
  }

  /** A rider whose job is delivered, returned, cancelled or requeued goes back online. */
  function ReleaseRider(riders: map<RiderId, RiderStatus>, before: JobRow, after: JobRow): map<RiderId, RiderStatus> {
    if after.version != before.version && Releases(after.status) && before.rider.Some? && before.rider.value in riders
    then riders[before.rider.value := RiderStatus.Online]
    else riders
  }

  function Save(db: Db, id: JobId, result: Result<Saved>, used: Option<KeyUse>): Outcome
    requires id in db.jobs
  {
    if result.Err? then RolledBack(result.error)
    else
      Committed(
        Db(db.jobs[id := result.value.job],
           ReleaseRider(db.riders, db.jobs[id].row, result.value.job.row),
           if used.Some? then db.keys[used.value.key := used.value.operation] else db.keys),
        result.value.reply)
  }

  datatype Request =
    | CreateJobFor(id: JobId, actor: Actor, storeOwner: UserId, payment: Option<Payment>)
    | OfferJob(id: JobId, rider: RiderId, actor: Actor, seconds: int, now: int)
    | AcceptOffer(id: JobId, i: nat, rider: RiderId, now: int)
    | RejectOffer(id: JobId, i: nat, rider: RiderId)
    | SweepJob(id: JobId, now: int)
    | TravelLeg(id: JobId, leg: Leg, rider: RiderId)
    | Checklist(id: JobId, verified: bool)
    | ChallengePickup(id: JobId, actor: Actor, kind: Pickup.PickupMethod, code: string, parcels: int, now: int)
    | VerifyPickup(id: JobId, actor: Actor, kind: Pickup.PickupMethod, code: string, parcels: int, now: int)
    | ConfirmHandoff(id: JobId, actor: Actor, parcels: int)
    | SendOtp(id: JobId, actor: Actor, code: string, key: Option<Key>, now: int)
    | Complete(id: JobId, actor: Actor, confirmed: bool, entered: Option<string>, now: int)
    | Fail(id: JobId, actor: Actor, reason: FailureReason, key: Option<Key>)
    | Resolve(id: JobId, actor: Actor, action: Option<Action>, hasOverrideReason: bool, key: Option<Key>)
    | BeginReturn(id: JobId, actor: Actor, key: Option<Key>)
    | ReceiveReturn(id: JobId, actor: Actor, key: Option<Key>)
    | CollectCash(id: JobId, actor: Actor, amount: int, key: Option<Key>)
    | SettleCash(id: JobId, actor: Actor, deposit: DepositRequest, key: Option<Key>)

  /** What a request that concerns one existing job asks of it. */
  function Update(request: Request, job: Job): Result<Saved> {
    match request
    case SweepJob(id, now) => SweepOffers(job, now)
    case TravelLeg(id, leg, rider) => Travel(job, leg, rider)
    case Checklist(id, verified) => SetChecklist(job, verified)
    case ChallengePickup(id, actor, kind, code, parcels, now) => IssueChallenge(job, actor, kind, code, parcels, now)
    case VerifyPickup(id, actor, kind, code, parcels, now) => VerifyChallenge(job, actor, kind, code, parcels, now)
    case ConfirmHandoff(id, actor, parcels) => ConfirmPickup(job, actor, parcels)
    case Complete(id, actor, confirmed, entered, now) => CompleteDelivery(job, actor, confirmed, entered, now)
    case Fail(id, actor, reason, key) => RecordFailure(job, actor, reason)
    case Resolve(id, actor, action, hasOverrideReason, key) => ResolveFailure(job, action, hasOverrideReason)
    case BeginReturn(id, actor, key) => StartReturn(job, actor)
    case ReceiveReturn(id, actor, key) => ConfirmReturn(job, actor)
    case CollectCash(id, actor, amount, key) => CollectCod(job, actor, amount)
    case SettleCash(id, actor, deposit, key) => SettleCod(job, actor, deposit)
    case _ => Err(NotFound)
  }

  /** The key and the kind of operation of the requests that are answered once per key. */
  function KeyLeft(request: Request): Option<KeyUse> {
    match request
    case Fail(id, _, _, key) => Use(key, id, FailureRecorded)
    case Resolve(id, _, _, _, key) => Use(key, id, ResolutionApplied)
    case BeginReturn(id, _, key) => Use(key, id, ReturnStarted)
    case ReceiveReturn(id, _, key) => Use(key, id, ReturnConfirmed)
    case CollectCash(id, _, _, key) => Use(if key.Some? then key else Some(CollectionKey(id)), id, CodCollected)
    case SettleCash(id, _, deposit, key) =>
      Use(if key.Some? then key else Some(SettlementKey(id, deposit.reference)), id, CodSettled)
    case _ => None
  }

  /** What is refused before the database is looked at. */
  function RefusedAtOnce(request: Request): Option<Error> {
    match request
    case ChallengePickup(_, actor, kind, _, _, _) =>
      if !actor.StoreOwner? then Some(Forbidden)
      else if kind.StoreConfirmedHandoff? then Some(BadRequest)
      else None
    case ConfirmHandoff(_, actor, _) => if !actor.StoreOwner? then Some(Forbidden) else None
    case Resolve(_, actor, _, _, _) => if !actor.Admin? then Some(Forbidden) else None
    case CollectCash(_, _, amount, _) => if amount < 1 then Some(BadRequest) else None
    case SettleCash(_, _, deposit, _) => if deposit.amount < 1 then Some(BadRequest) else None
    case _ => None
  }

  /** A request on one job: answered from its key if the key is known, applied to the job otherwise. */
  function HandleOne(db: Db, request: Request): Outcome {
    var refused := RefusedAtOnce(request);
    var left := KeyLeft(request);
    if refused.Some? then RolledBack(refused.value)
    else if left.Some? && left.value.key in db.keys then Committed(db, Replayed)
    else if request.CollectCash? && request.id in db.jobs && db.jobs[request.id].collected then Committed(db, Replayed)
    else if request.id !in db.jobs then RolledBack(NotFound)
    else Conclude(db, request, Update(request, db.jobs[request.id]))
  }

  /** Writes what the job made of the request; a reference used by another ledger voids a settlement. */
  function Conclude(db: Db, request: Request, result: Result<Saved>): Outcome
    requires request.id in db.jobs
  {
    if request.SettleCash? && result.Ok? && ReferenceTaken(db, request.id, request.deposit.reference)
    then RolledBack(Conflict)
    else Save(db, request.id, result, KeyLeft(request))
  }

  function Handle(db: Db, request: Request): Outcome {
    match request
    case CreateJobFor(id, actor, storeOwner, payment) => CreateJob(db, id, actor, storeOwner, payment)
    case OfferJob(id, rider, actor, seconds, now) => Offer(db, id, rider, actor, seconds, now)
    case AcceptOffer(id, i, rider, now) => Accept(db, id, i, rider, now)
    case RejectOffer(id, i, rider) => Reject(db, id, i, rider)
    case SendOtp(id, actor, code, key, now) => IssueOtp(db, id, actor, code, key, now)
    case _ => HandleOne(db, request)
  }

  function Next(db: Db, request: Request): Db {
    var outcome := Handle(db, request);
    if outcome.Committed? then outcome.db else db
  }

  /** The database after any list of requests, whatever they are and whoever sends them. */
  function Run(db: Db, requests: seq<Request>): Db {
    if requests == [] then db
    else Next(Run(db, requests[..|requests| - 1]), requests[|requests| - 1])
  }

  /** No job exists yet and no rider is busy. */
  predicate IsInitial(db: Db) {
    db.jobs == map[] && db.keys == map[] && forall rider :: rider in db.riders ==> !db.riders[rider].Busy?
  }

  /** A run as it is watched: the databases it passes through, and the request between each two. */
  datatype Trace = Trace(states: seq<Db>, requests: seq<Request>)

  ghost predicate Leads(run: Trace, i: nat)
    requires i < |run.requests| && |run.states| == |run.requests| + 1
  {
    run.states[i + 1] == Next(run.states[i], run.requests[i])
  }

  /** A run from a database without jobs, whatever is requested and by whom. */
  ghost predicate IsRun(run: Trace) {
    && |run.states| == |run.requests| + 1
    && IsInitial(run.states[0])
    && (forall i: nat {:trigger Leads(run, i)} :: i < |run.requests| ==> Leads(run, i))
  }
}
