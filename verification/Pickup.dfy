/** Pickup challenges and the proof of the store handoff. */
module Pickup {
  import opened Common
  import opened Workflow

  /** The secret behind a challenge; hashing is an equality test here. */
  type Code = string

  const PICKUP_TTL_MS := 900000
  const PICKUP_MAX_ATTEMPTS := 5

  datatype PickupMethod = StorePin | QrCode | StoreConfirmedHandoff

  datatype ChallengeStatus = Pending | Used | Expired | Superseded | Failed

  datatype Challenge = Challenge(
    kind: PickupMethod,
    code: Code,
    issuedBy: UserId,
    parcels: int,
    status: ChallengeStatus,
    attempts: int,
    expiresAt: int)

  /** A proof names the challenge it was made with, if any. */
  datatype PickupProof = PickupProof(rider: RiderId, storeUser: UserId, parcels: int, challenge: Option<nat>)

  datatype PickupFile = PickupFile(
    checklistVerified: bool,
    challenges: seq<Challenge>,
    proof: Option<PickupProof>)

  function SupersedePending(challenges: seq<Challenge>): (after: seq<Challenge>)
    ensures |after| == |challenges|
    ensures forall i :: 0 <= i < |after| ==>
      after[i] == if challenges[i].status.Pending? then challenges[i].(status := Superseded) else challenges[i]
  {
    seq(|challenges|, i requires 0 <= i < |challenges| =>
      if challenges[i].status.Pending? then challenges[i].(status := Superseded) else challenges[i])
  }

  function Issue(file: PickupFile, kind: PickupMethod, code: Code, issuedBy: UserId, parcels: int,
                 now: int): PickupFile {
    file.(challenges := SupersedePending(file.challenges)
      + [Challenge(kind, code, issuedBy, parcels, Pending, 0, now + PICKUP_TTL_MS)])
  }

  /** The latest pending challenge made with the given kind. */
  function LatestPending(challenges: seq<Challenge>, kind: PickupMethod): (found: Option<nat>)
    ensures found.Some? ==>
      && found.value < |challenges|
      && challenges[found.value].status.Pending?
      && challenges[found.value].kind == kind
    ensures found.None? ==>
      forall i :: 0 <= i < |challenges| ==> !(challenges[i].status.Pending? && challenges[i].kind == kind)
  {
    if challenges == [] then None
    else
      var last := |challenges| - 1;
      if challenges[last].status.Pending? && challenges[last].kind == kind then Some(last)
      else LatestPending(challenges[..last], kind)
  }

  function SetStatus(file: PickupFile, i: nat, status: ChallengeStatus): PickupFile
    requires i < |file.challenges|
  {
    file.(challenges := file.challenges[i := file.challenges[i].(status := status)])
  }

  /** A wrong code costs an attempt; the fifth closes the challenge. */
  function CountAttempt(file: PickupFile, i: nat): PickupFile
    requires i < |file.challenges|
  {
    var challenge := file.challenges[i];
    var attempts := challenge.attempts + 1;
    var status := if attempts >= PICKUP_MAX_ATTEMPTS then Failed else Pending;
    file.(challenges := file.challenges[i := challenge.(attempts := attempts, status := status)])
  }

  ghost predicate PickupInv(file: PickupFile) {
    && (forall i, k :: 0 <= i < |file.challenges| && 0 <= k < |file.challenges| ==>
          file.challenges[i].status.Pending? && file.challenges[k].status.Pending? ==> i == k)
    && (forall i :: 0 <= i < |file.challenges| ==> ChallengeInv(file.challenges[i]))
    && (file.proof.Some? && file.proof.value.challenge.Some? ==>
          var named := file.proof.value.challenge.value;
          && named < |file.challenges|
          && file.challenges[named].status.Used?
          && file.challenges[named].parcels == file.proof.value.parcels
          && file.challenges[named].issuedBy == file.proof.value.storeUser)
  }

  ghost predicate ChallengeInv(challenge: Challenge) {
    && 0 <= challenge.attempts <= PICKUP_MAX_ATTEMPTS
    && (challenge.status.Pending? ==> challenge.attempts < PICKUP_MAX_ATTEMPTS)
    && (challenge.status.Failed? <==> challenge.attempts == PICKUP_MAX_ATTEMPTS)
  }

  /** Challenges are only added, closed ones never change, and a proof is never replaced. */
  ghost predicate PickupGrows(before: PickupFile, after: PickupFile) {
    && |before.challenges| <= |after.challenges|
    && (forall i :: 0 <= i < |before.challenges| && !before.challenges[i].status.Pending? ==>
          after.challenges[i] == before.challenges[i])
    && (before.proof.Some? ==> after.proof == before.proof)
  }

  lemma IssueKeeps(file: PickupFile, kind: PickupMethod, code: Code, issuedBy: UserId, parcels: int, now: int)
    requires PickupInv(file)
    ensures PickupInv(Issue(file, kind, code, issuedBy, parcels, now))
    ensures PickupGrows(file, Issue(file, kind, code, issuedBy, parcels, now))
  {
  }

  lemma CountAttemptKeeps(file: PickupFile, i: nat)
    requires PickupInv(file) && i < |file.challenges| && file.challenges[i].status.Pending?
    ensures PickupInv(CountAttempt(file, i)) && PickupGrows(file, CountAttempt(file, i))
  {
  }

  lemma CloseKeeps(file: PickupFile, i: nat, status: ChallengeStatus)
    requires PickupInv(file) && i < |file.challenges| && file.challenges[i].status.Pending?
    requires status.Used? || status.Expired?
    ensures PickupInv(SetStatus(file, i, status)) && PickupGrows(file, SetStatus(file, i, status))
  {
  }

  /** The challenge a new proof names is used from then on. */
  lemma ProveKeeps(file: PickupFile, i: nat, proof: PickupProof)
    requires PickupInv(file) && i < |file.challenges| && file.challenges[i].status.Pending?
    requires file.proof.None? && proof.challenge == Some(i)
    requires proof.parcels == file.challenges[i].parcels && proof.storeUser == file.challenges[i].issuedBy
    ensures var after := SetStatus(file.(proof := Some(proof)), i, Used);
      PickupInv(after) && PickupGrows(file, after)
  {
  }

  /** A challenge just issued is the one that is found, and no other challenge stays pending. */
  lemma IssuedIsFound(file: PickupFile, kind: PickupMethod, code: Code, issuedBy: UserId, parcels: int, now: int,
                      other: PickupMethod)
    ensures LatestPending(Issue(file, kind, code, issuedBy, parcels, now).challenges, other) ==
            if other == kind then Some(|file.challenges|) else None
  {
  }
}
