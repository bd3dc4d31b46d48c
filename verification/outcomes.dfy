/** Structured outcomes (core/outcomes.py), reduced to the fields that decisions read. */
module Outcomes {
  import opened Common

  datatype Status =
    | Queued | InProgress | MaterialsRequired | ReviewReady | AwaitingGateA | AwaitingGateB
    | NeedsUser | NeedsUserLogin | NeedsUser2fa | NeedsUserCaptcha | NeedsUserEmailVerification
    | NeedsUserAccountLocked | NeedsUserSensitiveAnswer
    | Submitting | SubmittedVerified | SubmitUnknown | SkippedPolicy
    | FailedRetryable | FailedUnsupported | FailedTerminal | InternalError

  datatype Reason =
    | NoReason | ReviewComplete | SubmissionConfirmed | GateARequired | GateBRequired
    | LoginRequired | TwoFactorAuth | Captcha | EmailVerification | AccountLocked
    | UnknownRequiredQuestion | SensitiveAnswerRequired | MissingMaterial | ValidationFailed
    | UnsupportedAts | PolicyDenied | RetryableBrowserError | ConfirmationMissing
    | DuplicateSubmission | InternalFault

  datatype EvidenceKind =
    | ConfirmationText | ConfirmationUrl | Screenshot | AtsApplicationId | Email
    | NetworkResponse | FormSnapshot

  /** The kinds that may support a verified submission: every kind but a form snapshot. */
  predicate Eligible(kind: EvidenceKind) {
    kind != FormSnapshot
  }

  datatype Evidence = Evidence(kind: EvidenceKind, sha256: string)

  /** The `details` mapping; an absent key is the empty string. */
  datatype Details = Details(
    review: string,              // details["review"]["fingerprint"]
    reviewFingerprint: string,
    formFingerprint: string,
    attestation: string,         // workday_binding_attestation
    doNotRetry: bool,            // do_not_retry_submit
    intent: Option<nat>,         // submission_intent_id
    preSubmitReview: string      // actual_pre_submit_review_hash
  )

  const NO_DETAILS := Details("", "", "", "", false, None, "")

  /** An outcome as an adapter hands it over: nothing about its fields is trusted. */
  datatype Outcome = Outcome(
    runId: string,
    jobId: string,
    status: Status,
    reason: Reason,
    adapter: string,
    retryable: bool,
    checkpoint: string,
    evidence: seq<Evidence>,
    details: Details
  )

  /** The first piece of evidence that may support a verified submission. */
  function EligibleEvidence(evidence: seq<Evidence>): (r: Option<Evidence>)
    ensures r.None? <==> forall i :: 0 <= i < |evidence| ==> !Eligible(evidence[i].kind)
    ensures r.Some? ==> r.value in evidence && Eligible(r.value.kind)
  {
    if evidence == [] then None
    else if Eligible(evidence[0].kind) then Some(evidence[0])
    else
      assert forall i :: 1 <= i < |evidence| ==> evidence[i] == evidence[1..][i - 1];
      EligibleEvidence(evidence[1..])
  }

  /** The hash of the first form snapshot that carries one. */
  function SnapshotHash(evidence: seq<Evidence>): string {
    if evidence == [] then ""
    else if evidence[0].kind.FormSnapshot? && evidence[0].sha256 != "" then evidence[0].sha256
    else SnapshotHash(evidence[1..])
  }

  /** `_review_hash`: the fingerprint an outcome carries, by decreasing precedence. */
  function ReviewHash(o: Outcome): string {
    if o.details.review != "" then o.details.review
    else if o.details.reviewFingerprint != "" then o.details.reviewFingerprint
    else if o.details.formFingerprint != "" then o.details.formFingerprint
    else if SnapshotHash(o.evidence) != "" then SnapshotHash(o.evidence)
    else if |o.checkpoint| == 64 then o.checkpoint
    else ""
  }
}
