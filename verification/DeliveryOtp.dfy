/** Delivery codes: issued rows, failed attempts and verified rows of one job. */
module DeliveryOtp {
  import opened Common

  type Code = string

  const OTP_TTL_MS := 300000
  const OTP_MAX_ATTEMPTS := 5

  datatype IssueStatus = Pending | Completed | Failed | Superseded

  datatype OtpIssue = OtpIssue(status: IssueStatus, code: Code, expiresAt: int)

  /** An OTP_ATTEMPT_FAILED row: the issue it names and the number it carries. */
  datatype OtpFailure = OtpFailure(issue: nat, attempt: nat)

  /** The OTP rows of a job in creation order; `verified` holds the issue of each OTP_VERIFIED row. */
  datatype OtpFile = OtpFile(issues: seq<OtpIssue>, failures: seq<OtpFailure>, verified: seq<nat>)

  const NO_OTP: OtpFile := OtpFile([], [], [])

  function SupersedePending(issues: seq<OtpIssue>): (after: seq<OtpIssue>)
    ensures |after| == |issues|
    ensures forall i :: 0 <= i < |after| ==>
      after[i] == if issues[i].status.Pending? then issues[i].(status := Superseded) else issues[i]
  {
    seq(|issues|, i requires 0 <= i < |issues| =>
      if issues[i].status.Pending? then issues[i].(status := Superseded) else issues[i])
  }

  function Issue(otp: OtpFile, code: Code, now: int): OtpFile {
    otp.(issues := SupersedePending(otp.issues) + [OtpIssue(Pending, code, now + OTP_TTL_MS)])
  }

  function LatestPending(issues: seq<OtpIssue>): (found: Option<nat>)
    ensures found.Some? ==> found.value < |issues| && issues[found.value].status.Pending?
    ensures found.None? ==> forall i :: 0 <= i < |issues| ==> !issues[i].status.Pending?
  {
    if issues == [] then None
    else
      var last := |issues| - 1;
      if issues[last].status.Pending? then Some(last) else LatestPending(issues[..last])
  }

  /** The numbers carried by the failed attempts on one issue, oldest first. */
  function AttemptsOn(failures: seq<OtpFailure>, issue: nat): (numbers: seq<nat>)
    ensures |numbers| <= |failures|
  {
    if failures == [] then []
    else
      var last := failures[|failures| - 1];
      AttemptsOn(failures[..|failures| - 1], issue) + if last.issue == issue then [last.attempt] else []
  }

  /** A row is only inserted when no row has its idempotency key yet. */
  function InsertFailure(failures: seq<OtpFailure>, row: OtpFailure): seq<OtpFailure> {
    if row in failures then failures else failures + [row]
  }

  function Close(otp: OtpFile, issue: nat, status: IssueStatus): OtpFile
    requires issue < |otp.issues|
  {
    otp.(issues := otp.issues[issue := otp.issues[issue].(status := status)])
  }

  datatype Verdict =
    | NoActiveCode
    | CodeExpired
    | AttemptLimit(attempts: nat)
    | WrongCode(attempts: nat)
    | Verified(row: nat)

  datatype Verification = Verification(otp: OtpFile, verdict: Verdict)

  /** A wrong code is recorded under the next number; the fifth closes the issue. */
  function RecordWrongCode(otp: OtpFile, issue: nat): OtpFile
    requires issue < |otp.issues|
  {
    var attempt := |AttemptsOn(otp.failures, issue)| + 1;
    var counted := otp.(failures := InsertFailure(otp.failures, OtpFailure(issue, attempt)));
    if attempt >= OTP_MAX_ATTEMPTS then Close(counted, issue, Failed) else counted
  }

  /** The right code completes the issue; its OTP_VERIFIED row is made at most once. */
  function RecordVerified(otp: OtpFile, issue: nat): OtpFile
    requires issue < |otp.issues|
  {
    Close(if issue in otp.verified then otp else otp.(verified := otp.verified + [issue]), issue, Completed)
  }

  /** Checks a supplied code against the pending issue and records what it found. */
  function Verify(otp: OtpFile, code: Code, now: int): Verification {
    var pending := LatestPending(otp.issues);
    if pending.None? then Verification(otp, NoActiveCode)
    else
      var issue := pending.value;
      var attempts := |AttemptsOn(otp.failures, issue)|;
      if otp.issues[issue].expiresAt <= now then
        Verification(Close(otp, issue, Failed), CodeExpired)
      else if attempts >= OTP_MAX_ATTEMPTS then
        Verification(otp, AttemptLimit(attempts))
      else if otp.issues[issue].code != code then
        Verification(RecordWrongCode(otp, issue), WrongCode(attempts + 1))
      else
        var after := RecordVerified(otp, issue);
        Verification(after, Verified(Position(after.verified, issue)))
  }

  function Position(xs: seq<nat>, x: nat): (i: nat)
    requires x in xs
    ensures i < |xs| && xs[i] == x
  {
    if xs[0] == x then 0 else 1 + Position(xs[1..], x)
  }

  /** The ladder of attempts on one issue: numbered from 1 with no gap, and short enough for its status. */
  ghost predicate Ladder(otp: OtpFile, issue: nat)
    requires issue < |otp.issues|
  {
    var numbers := AttemptsOn(otp.failures, issue);
    && (forall k :: 0 <= k < |numbers| ==> numbers[k] == k + 1)
    && |numbers| <= OTP_MAX_ATTEMPTS
    && (otp.issues[issue].status.Pending? ==> |numbers| < OTP_MAX_ATTEMPTS)
  }

  ghost predicate OtpInv(otp: OtpFile) {
    && (forall i, k :: 0 <= i < |otp.issues| && 0 <= k < |otp.issues| ==>
          otp.issues[i].status.Pending? && otp.issues[k].status.Pending? ==> i == k)
    && (forall row :: row in otp.failures ==> row.issue < |otp.issues|)
    && (forall i :: 0 <= i < |otp.issues| ==> Ladder(otp, i))
    && (forall k :: 0 <= k < |otp.verified| ==>
          otp.verified[k] < |otp.issues| && otp.issues[otp.verified[k]].status.Completed?)
    && (forall i :: 0 <= i < |otp.issues| && otp.issues[i].status.Completed? ==> i in otp.verified)
  }

  /** Rows are only added, and an issue that is closed stays as it is. */
  ghost predicate OtpGrows(before: OtpFile, after: OtpFile) {
    && |before.issues| <= |after.issues|
    && (forall i :: 0 <= i < |before.issues| && !before.issues[i].status.Pending? ==>
          after.issues[i] == before.issues[i])
    && before.failures <= after.failures
    && before.verified <= after.verified
  }

  lemma {:induction false} AttemptsBelong(failures: seq<OtpFailure>, issue: nat)
    ensures forall n :: n in AttemptsOn(failures, issue) <==> OtpFailure(issue, n) in failures
  {
    if failures != [] {
      var front, last := failures[..|failures| - 1], failures[|failures| - 1];
      AttemptsBelong(front, issue);
      assert failures == front + [last];
    }
  }

  lemma AttemptsAppend(failures: seq<OtpFailure>, row: OtpFailure, issue: nat)
    ensures AttemptsOn(failures + [row], issue) ==
            AttemptsOn(failures, issue) + if row.issue == issue then [row.attempt] else []
  {
    var all := failures + [row];
    assert all[..|all| - 1] == failures;
  }

  lemma {:induction false} NoAttemptsYet(failures: seq<OtpFailure>, issue: nat)
    requires forall row :: row in failures ==> row.issue < issue
    ensures AttemptsOn(failures, issue) == []
  {
    if failures != [] {
      NoAttemptsYet(failures[..|failures| - 1], issue);
      assert failures[|failures| - 1] in failures;
    }
  }

  lemma IssueKeeps(otp: OtpFile, code: Code, now: int)
    requires OtpInv(otp)
    ensures OtpInv(Issue(otp, code, now)) && OtpGrows(otp, Issue(otp, code, now))
  {
    var after := Issue(otp, code, now);
    forall i | 0 <= i < |after.issues| ensures Ladder(after, i) {
      if i < |otp.issues| {
        assert Ladder(otp, i);
      } else {
        NoAttemptsYet(otp.failures, i);
      }
    }
  }

  /** A wrong code adds exactly the next number, because no earlier row carries it. */
  lemma FailureIsNew(otp: OtpFile, issue: nat)
    requires OtpInv(otp) && issue < |otp.issues|
    ensures OtpFailure(issue, |AttemptsOn(otp.failures, issue)| + 1) !in otp.failures
  {
    AttemptsBelong(otp.failures, issue);
    assert Ladder(otp, issue);
  }

  lemma ExpireKeeps(otp: OtpFile, issue: nat)
    requires OtpInv(otp) && issue < |otp.issues| && otp.issues[issue].status.Pending?
    ensures OtpInv(Close(otp, issue, Failed)) && OtpGrows(otp, Close(otp, issue, Failed))
  {
    var after := Close(otp, issue, Failed);
    forall i | 0 <= i < |after.issues| ensures Ladder(after, i) {
      assert Ladder(otp, i);
    }
  }

  lemma WrongCodeKeeps(otp: OtpFile, issue: nat)
    requires OtpInv(otp) && issue < |otp.issues| && otp.issues[issue].status.Pending?
    ensures OtpInv(RecordWrongCode(otp, issue)) && OtpGrows(otp, RecordWrongCode(otp, issue))
  {
    var after := RecordWrongCode(otp, issue);
    var row := OtpFailure(issue, |AttemptsOn(otp.failures, issue)| + 1);
    FailureIsNew(otp, issue);
    assert after.failures == otp.failures + [row];
    forall i | 0 <= i < |after.issues| ensures Ladder(after, i) {
      assert Ladder(otp, i);
      AttemptsAppend(otp.failures, row, i);
    }
  }

  lemma VerifiedKeeps(otp: OtpFile, issue: nat)
    requires OtpInv(otp) && issue < |otp.issues| && otp.issues[issue].status.Pending?
    ensures OtpInv(RecordVerified(otp, issue)) && OtpGrows(otp, RecordVerified(otp, issue))
    ensures RecordVerified(otp, issue).verified == otp.verified + [issue]
    ensures Position(RecordVerified(otp, issue).verified, issue) == |otp.verified|
  {
    var after := RecordVerified(otp, issue);
    assert issue !in otp.verified;
    forall i | 0 <= i < |after.issues| ensures Ladder(after, i) {
      assert Ladder(otp, i);
    }
  }

  lemma VerifyKeeps(otp: OtpFile, code: Code, now: int)
    requires OtpInv(otp)
    ensures OtpInv(Verify(otp, code, now).otp) && OtpGrows(otp, Verify(otp, code, now).otp)
    ensures Verify(otp, code, now).verdict.Verified? ==>
      && Verify(otp, code, now).otp.verified == otp.verified + [LatestPending(otp.issues).value]
      && Verify(otp, code, now).verdict.row == |otp.verified|
    ensures !Verify(otp, code, now).verdict.Verified? ==> Verify(otp, code, now).otp.verified == otp.verified
  {
    var pending := LatestPending(otp.issues);
    if pending.Some? {
      var issue := pending.value;
      if otp.issues[issue].expiresAt <= now {
        ExpireKeeps(otp, issue);
      } else if |AttemptsOn(otp.failures, issue)| < OTP_MAX_ATTEMPTS {
        if otp.issues[issue].code != code {
          WrongCodeKeeps(otp, issue);
        } else {
          VerifiedKeeps(otp, issue);
        }
      }
    }
  }

  /** A fresh code verifies until it expires, and nothing else does: issuing and checking are inverse. */
  lemma IssuedCodeVerifies(otp: OtpFile, code: Code, now: int, entered: Code, later: int)
    requires OtpInv(otp)
    ensures var checked := Verify(Issue(otp, code, now), entered, later);
      && (checked.verdict.Verified? <==> entered == code && later < now + 5 * 60 * 1000)
      && (checked.verdict.CodeExpired? <==> now + 5 * 60 * 1000 <= later)
      && (checked.verdict.WrongCode? ==> checked.verdict.attempts == 1)
  {
    var issued := Issue(otp, code, now);
    IssueKeeps(otp, code, now);
    var i := |otp.issues|;
    assert LatestPending(issued.issues) == Some(i);
    NoAttemptsYet(otp.failures, i);
  }
}
