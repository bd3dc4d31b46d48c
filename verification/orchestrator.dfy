/** `run_application_execution` (core/application_execution_orchestrator.py): four stages in
    strict order, each fed the identifier of the one before, and a write-once repository of
    content-addressed runs. */
module Orchestrator {
  import opened Common

  datatype StageStatus = Created | Unchanged | Deferred | Blocked | Uncertain | Failed

  /** A stage, by its place in the order: non-submit execution, Gate B authorisation, permit
      issuance, authorised submission. */
  type Stage = k: nat | k < 4

  datatype Record = Record(id: string, hash: string)

  datatype StageResult = StageResult(
    stage: Stage, status: StageStatus, publicStatus: string, record: Option<Record>, reason: Option<string>)
  {
    predicate Succeeded() { status in {Created, Unchanged, Uncertain} }

    /** The checks of the record's constructor. */
    predicate Valid() {
      && Clean(publicStatus, 120).Some?
      && (Succeeded() ==> record.Some? && Clean(record.value.id, 240).Some? && IsDigest(record.value.hash) && reason.None?)
      && (!Succeeded() ==> record.None? && reason.Some? && Clean(reason.value, 200).Some?)
    }
  }

  /** What approval and policy a run is executed under. */
  datatype Binding = Binding(
    subject: string, assemblyId: string, assemblyHash: string, gateA: bool,
    explicit: Option<Record>, metadata: string)

  datatype Overall = Completed | RunDeferred | RunUncertain | RunFailed

  /** The content a run is addressed by; it leaves out the times. */
  datatype Identity = Identity(
    binding: Binding, planId: string, jobId: string, stages: seq<StageResult>, overall: Overall,
    deferredStage: Option<Stage>, deferredReason: Option<string>,
    failedStage: Option<Stage>, failedReason: Option<string>)

  datatype Run = Run(id: Identity, outputs: seq<Option<string>>, startedAt: int, completedAt: int) {
    predicate Terminal() { id.overall == Completed || id.overall == RunUncertain }
  }

  function Last(stages: seq<StageResult>): StageResult
    requires stages != []
  {
    stages[|stages| - 1]
  }

  /** The record identifier that a stage of the lineage exposes. */
  function Output(stages: seq<StageResult>, k: Stage): Option<string> {
    if k < |stages| && stages[k].Succeeded() && stages[k].record.Some? then Some(stages[k].record.value.id) else None
  }

  /** The identifiers and hashes of a run that come from its assembly and its command. */
  predicate Named(id: Identity) {
    && Clean(id.binding.subject, 240).Some? && Clean(id.planId, 240).Some? && Clean(id.jobId, 240).Some?
    && Clean(id.binding.assemblyId, 240).Some? && IsDigest(id.binding.assemblyHash)
    && (id.binding.explicit.Some? ==> Authorizes(id.binding.explicit.value))
  }

  /** The identifier and hash checks on an explicit authorisation. */
  predicate Authorizes(r: Record) {
    Clean(r.id, 240).Some? && IsDigest(r.hash)
  }

  /** The invariants of `ApplicationExecutionRun.__post_init__`. */
  predicate WellFormed(r: Run) {
    Named(r.id) && Consistent(r)
  }

  /** The lineage of the stages agrees with what the run says about itself. */
  predicate Consistent(r: Run) {
    var stages := r.id.stages;
    && 1 <= |stages| <= 4
    && (forall i :: 0 <= i < |stages| ==> stages[i].stage == i && stages[i].Valid())
    && |r.outputs| == 4 && (forall k: Stage :: r.outputs[k] == Output(stages, k))
    && r.startedAt <= r.completedAt
    && match r.id.overall
       case Completed =>
         |stages| == 4 && Last(stages).status in {Created, Unchanged} && r.id.deferredStage.None? && r.id.failedStage.None?
       case RunUncertain =>
         |stages| == 4 && Last(stages).status == Uncertain && r.id.deferredStage.None? && r.id.failedStage.None?
       case RunDeferred =>
         && r.id.deferredStage == Some(Last(stages).stage) && r.id.deferredReason.Some?
         && r.id.failedStage.None? && r.id.failedReason.None? && Last(stages).status == Deferred
       case RunFailed =>
         && r.id.failedStage == Some(Last(stages).stage) && r.id.failedReason.Some?
         && r.id.deferredStage.None? && r.id.deferredReason.None? && Last(stages).status in {Blocked, Failed}
  }

  /** An assembly record, as its own constructor leaves it. */
  datatype AssemblyRecord = Assembly(subject: string, id: string, hash: string, planId: string, jobId: string)

  const ASSEMBLY_PREFIX := "application-bundle-assembly-"

  predicate AssemblyId(id: string) {
    ASSEMBLY_PREFIX <= id && IsDigest(id[|ASSEMBLY_PREFIX|..])
  }

  predicate Constructed(a: AssemblyRecord) {
    && Clean(a.subject, 200).Some? && Clean(a.planId, 200).Some? && Clean(a.jobId, 200).Some?
    && AssemblyId(a.id) && IsDigest(a.hash)
  }

  type Assembly = a: AssemblyRecord | Constructed(a) witness EXAMPLE_ASSEMBLY

  const EXAMPLE_ASSEMBLY := AssemblyRecord.Assembly("s", ASSEMBLY_PREFIX + DIGEST, DIGEST, "p", "j")

  const DIGEST := Zeros(64)

  /** An identifier that ends in a digest is no longer than its prefix and 64 characters. */
  lemma AssemblyIdIsClean(id: string)
    requires AssemblyId(id)
    ensures Clean(id, 240) == Some(id)
  {
    assert id[0] == ASSEMBLY_PREFIX[0] && id[|id| - 1] == id[|ASSEMBLY_PREFIX|..][63];
  }

  type Authorization = r: Record | Authorizes(r) witness Record("r", DIGEST)

  /** `_build_run`. */
  function BuildRun(a: Assembly, b: Binding, stages: seq<StageResult>, overall: Overall, now: int): Run
    requires stages != []
  {
    var last := Last(stages);
    Run(Identity(b, a.planId, a.jobId, stages, overall,
                 if overall == RunDeferred then Some(last.stage) else None,
                 if overall == RunDeferred then last.reason else None,
                 if overall == RunFailed then Some(last.stage) else None,
                 if overall == RunFailed then last.reason else None),
        [Output(stages, 0), Output(stages, 1), Output(stages, 2), Output(stages, 3)], now, now)
  }

  /** The overall status that a last stage status stands for. */
  function OverallOf(last: StageStatus): Overall {
    match last
    case Created => Completed case Unchanged => Completed case Uncertain => RunUncertain
    case Deferred => RunDeferred case Blocked => RunFailed case Failed => RunFailed
  }

  /** A valid ordered lineage that stopped, or went through all four stages. */
  predicate Lineage(stages: seq<StageResult>) {
    && 1 <= |stages| <= 4
    && (forall i :: 0 <= i < |stages| ==> stages[i].stage == i && stages[i].Valid())
    && (Last(stages).Succeeded() ==> |stages| == 4)
  }

  /** Every run the orchestrator builds passes the constructor. */
  lemma BuiltRunsAreWellFormed(a: Assembly, b: Binding, stages: seq<StageResult>, now: int)
    requires Lineage(stages) && Binds(a, b)
    ensures WellFormed(BuildRun(a, b, stages, OverallOf(Last(stages).status), now))
  {
    BuiltRunsAreNamed(a, b, stages, OverallOf(Last(stages).status), now);
    BuiltRunsAreConsistent(a, b, stages, now);
  }

  lemma BuiltRunsAreNamed(a: Assembly, b: Binding, stages: seq<StageResult>, overall: Overall, now: int)
    requires stages != [] && Binds(a, b)
    ensures Named(BuildRun(a, b, stages, overall, now).id)
  {
    AssemblyIdIsClean(a.id);
    LongerLimit(a.subject);
    LongerLimit(a.planId);
    LongerLimit(a.jobId);
  }

  lemma LongerLimit(s: string)
    requires Clean(s, 200).Some?
    ensures Clean(s, 240).Some?
  {
  }

  lemma BuiltRunsAreConsistent(a: Assembly, b: Binding, stages: seq<StageResult>, now: int)
    requires Lineage(stages)
    ensures Consistent(BuildRun(a, b, stages, OverallOf(Last(stages).status), now))
  {
  }

  /** The binding names this assembly, and only a proper authorisation. */
  predicate Binds(a: Assembly, b: Binding) {
    b.subject == a.subject && b.assemblyId == a.id && b.assemblyHash == a.hash
    && (b.explicit.Some? ==> Authorizes(b.explicit.value))
  }

  /** The status values of the four stages' results; `Text` is any other text. */
  datatype Name =
    | NCreated | NUnchanged | NAuthorized | NBlocked | NUncertain | NFailed | NNotAuthorized
    | NGateARequired | NBrowserUnavailable | NRuntimeInput | NUserAuthorization | NIssuerUnavailable | NReviewChanged
    | Text(text: string)

  function NameText(n: Name): string {
    match n
    case NCreated => "CREATED" case NUnchanged => "UNCHANGED" case NAuthorized => "AUTHORIZED"
    case NBlocked => "BLOCKED" case NUncertain => "SUBMISSION_UNCERTAIN" case NFailed => "FAILED"
    case NNotAuthorized => "NOT_AUTHORIZED" case NGateARequired => "DEFERRED_GATE_A_REQUIRED"
    case NBrowserUnavailable => "DEFERRED_BROWSER_UNAVAILABLE" case NRuntimeInput => "DEFERRED_RUNTIME_INPUT_REQUIRED"
    case NUserAuthorization => "DEFERRED_USER_AUTHORIZATION_REQUIRED"
    case NIssuerUnavailable => "DEFERRED_ISSUER_UNAVAILABLE" case NReviewChanged => "DEFERRED_REVIEW_CHANGED"
    case Text(text) => text
  }

  /** The members of a stage's own status enumeration. */
  predicate IsMember(k: Stage, n: Name) {
    match k
    case 0 => n.NCreated? || n.NUnchanged? || n.NGateARequired? || n.NBrowserUnavailable? || n.NRuntimeInput? || n.NFailed?
    case 1 => n.NAuthorized? || n.NUnchanged? || n.NUserAuthorization? || n.NBlocked? || n.NFailed?
    case 2 => n.NCreated? || n.NUnchanged? || n.NNotAuthorized? || n.NIssuerUnavailable? || n.NFailed?
    case _ => n.NCreated? || n.NUnchanged? || n.NNotAuthorized? || n.NBrowserUnavailable? || n.NReviewChanged?
              || n.NRuntimeInput? || n.NUncertain? || n.NFailed?
  }

  /** A status as a response carries it: a member of the stage's enumeration, a plain string,
      a member of another string enumeration, or an object that equals no string. */
  datatype StatusValue = Member(name: Name) | PlainText(name: Name) | OtherEnum(name: Name) | OtherObject(name: Name, hasValue: bool)
  {
    /** `==` and membership in a set, which compare texts. */
    predicate Equals(n: Name) { !OtherObject? && name == n }

    /** `is`. */
    predicate Is(n: Name) { Member? && name == n }

    predicate HasValue() { Member? || OtherEnum? || (OtherObject? && hasValue) }
  }

  datatype Verdict = NoVerdict | Authorized | AuthorizationRequired | VerdictBlocked

  /** What a stage callable gives back; `NoAnswer` is an exception or nothing. */
  datatype Response =
    | NoAnswer
    | Answer(status: StatusValue, reason: Option<string>, record: Option<Record>,
             reviewReady: bool, verdict: Verdict, outcomeUncertain: bool)
  {
    function Shown(): string
      requires Answer?
    {
      NameText(status.name)
    }
  }

  /** What the orchestrator makes of a response: go on with a record, stop, or leave with an
      exception of its own. */
  datatype Judgement =
    | Advance(status: StageStatus, text: string, record: Record)
    | Halt(status: StageStatus, text: string, reason: string)
    | Raise

  const EXCEPTION := Halt(Failed, "PUBLIC_STAGE_EXCEPTION", "PUBLIC_STAGE_EXCEPTION")

  const CONTRACT := "PUBLIC_STAGE_CONTRACT_FAILURE"

  function Reason(a: Response, fallback: string): string
    requires a.Answer?
  {
    if a.reason.Some? then a.reason.value else fallback
  }

  predicate GoodRecord(a: Response) {
    a.Answer? && a.record.Some? && Clean(a.record.value.id, 240).Some? && IsDigest(a.record.value.hash)
  }

  /** The checks on a successful stage's record; then the value of the status is read, which
      a plain string does not have. */
  function WithRecord(a: Response, status: StageStatus): Judgement
    requires a.Answer?
  {
    if !GoodRecord(a) then Halt(Failed, CONTRACT, CONTRACT)
    else if a.status.PlainText? then Raise
    else Advance(status, a.Shown(), Record(Clean(a.record.value.id, 240).value, a.record.value.hash))
  }

  function JudgeNonSubmit(a: Response): Judgement {
    if a.NoAnswer? then EXCEPTION
    else if a.status.Equals(NCreated) || a.status.Equals(NUnchanged) then
      if a.record.None? || !a.reviewReady then Halt(Deferred, a.Shown(), "RUNTIME_INPUT_REQUIRED")
      else WithRecord(a, if a.status.Equals(NCreated) then Created else Unchanged)
    else if a.status.Equals(NGateARequired) || a.status.Equals(NBrowserUnavailable) || a.status.Equals(NRuntimeInput) then
      if a.status.PlainText? then Raise else Halt(Deferred, a.Shown(), Reason(a, a.Shown()))
    else Halt(Failed, a.Shown(), Reason(a, CONTRACT))
  }

  function JudgeGateB(a: Response): Judgement {
    if a.NoAnswer? then EXCEPTION
    else if a.status.Is(NBlocked) then Halt(Blocked, a.Shown(), Reason(a, "GATE_B_BLOCKED"))
    else if a.verdict == AuthorizationRequired then Halt(Deferred, a.Shown(), "USER_AUTHORIZATION_REQUIRED")
    else if a.verdict == VerdictBlocked then Halt(Blocked, a.Shown(), "GATE_B_BLOCKED")
    else if (!a.status.Equals(NAuthorized) && !a.status.Equals(NUnchanged)) || a.verdict != Authorized then
      if a.status.Is(NUserAuthorization) then Halt(Deferred, a.Shown(), Reason(a, "USER_AUTHORIZATION_REQUIRED"))
      else Halt(Failed, a.Shown(), Reason(a, CONTRACT))
    else WithRecord(a, if a.status.Is(NUnchanged) then Unchanged else Created)
  }

  function JudgePermit(a: Response): Judgement {
    if a.NoAnswer? then EXCEPTION
    else if !a.status.Equals(NCreated) && !a.status.Equals(NUnchanged) then
      Halt(if a.status.Equals(NNotAuthorized) || a.status.Equals(NIssuerUnavailable) then Deferred else Failed, a.Shown(),
           Reason(a, if a.status.HasValue() then a.Shown() else "PERMIT_STAGE_FAILED"))
    else WithRecord(a, if a.status.Equals(NCreated) then Created else Unchanged)
  }

  /** An uncertain status of a foreign enumeration is taken for a completed run, which the
      constructor of the run refuses. */
  function JudgeSubmission(a: Response): Judgement {
    if a.NoAnswer? then EXCEPTION
    else if a.status.Equals(NCreated) || a.status.Equals(NUnchanged) || a.status.Equals(NUncertain) then
      if GoodRecord(a) && a.status.Equals(NUncertain) && !a.status.Is(NUncertain) && !a.outcomeUncertain then Raise
      else WithRecord(a, if a.status.Is(NUncertain) || a.outcomeUncertain then Uncertain
                         else if a.status.Equals(NCreated) then Created else Unchanged)
    else
      Halt(if a.status.Equals(NNotAuthorized) || a.status.Equals(NBrowserUnavailable) || a.status.Equals(NReviewChanged)
              || a.status.Equals(NRuntimeInput) then Deferred else Failed, a.Shown(),
           Reason(a, if a.status.HasValue() then a.Shown() else "SUBMISSION_STAGE_FAILED"))
  }

  function Judge(k: Stage, a: Response): Judgement {
    match k
    case 0 => JudgeNonSubmit(a)
    case 1 => JudgeGateB(a)
    case 2 => JudgePermit(a)
    case _ => JudgeSubmission(a)
  }

  /** The stage result to be constructed; an exception leaves none, which no check accepts. */
  function ResultOf(k: Stage, j: Judgement): StageResult {
    match j
    case Advance(status, text, record) => StageResult(k, status, text, Some(record), None)
    case Halt(status, text, reason) => StageResult(k, status, text, None, Some(reason))
    case Raise => StageResult(k, Failed, "", None, None)
  }

  predicate Permits(k: Stage, a: Response)
    requires a.Answer?
  {
    match k
    case 0 => (a.status.Equals(NCreated) || a.status.Equals(NUnchanged)) && a.reviewReady
    case 1 => (a.status.Equals(NAuthorized) || a.status.Equals(NUnchanged)) && a.verdict == Authorized
    case 2 => a.status.Equals(NCreated) || a.status.Equals(NUnchanged)
    case _ => a.status.Equals(NCreated) || a.status.Equals(NUnchanged) || a.status.Equals(NUncertain)
  }

  /** The stages at which the value of a plain string is read. */
  predicate ReadsPlainText(k: Stage, a: Response)
    requires a.Answer?
  {
    && a.status.PlainText?
    && ((GoodRecord(a) && Permits(k, a))
        || (k == 0 && (a.status.name.NGateARequired? || a.status.name.NBrowserUnavailable? || a.status.name.NRuntimeInput?)))
  }

  /** A submission that another enumeration calls uncertain and its own record does not. */
  predicate ForeignUncertain(k: Stage, a: Response)
    requires a.Answer?
  {
    k == 3 && a.status == OtherEnum(NUncertain) && GoodRecord(a) && !a.outcomeUncertain
  }

  /** When a stage lets the run go on: a ready review, an authorised decision, an issued
      permit, a submission that is done or uncertain; always with a proper record. */
  lemma AdvancesIff(k: Stage, a: Response)
    ensures Judge(k, a).Advance? <==>
      GoodRecord(a) && Permits(k, a) && !ReadsPlainText(k, a) && !ForeignUncertain(k, a)
    ensures Judge(k, a).Advance? ==> Judge(k, a).record == Record(Clean(a.record.value.id, 240).value, a.record.value.hash)
    ensures Judge(k, a).Advance? && Judge(k, a).status == Uncertain <==>
      k == 3 && Judge(k, a).Advance? && (a.status.Equals(NUncertain) || a.outcomeUncertain)
  {
  }

  /** An exception leaves the orchestrator at this stage. */
  predicate Escapes(k: Stage, a: Response) {
    !ResultOf(k, Judge(k, a)).Valid()
  }

  /** What a judgement must satisfy for its stage result to be constructed. */
  lemma ResultValidIff(k: Stage, j: Judgement)
    ensures j.Raise? ==> !ResultOf(k, j).Valid()
    ensures j.Halt? && j.status in {Deferred, Blocked, Failed} ==>
      (ResultOf(k, j).Valid() <==> Clean(j.text, 120).Some? && Clean(j.reason, 200).Some?)
    ensures j.Advance? && j.status in {Created, Unchanged, Uncertain} ==>
      (ResultOf(k, j).Valid() <==> Clean(j.text, 120).Some? && Clean(j.record.id, 240).Some? && IsDigest(j.record.hash))
  {
  }

  /** What every judgement satisfies. */
  lemma JudgeShape(k: Stage, a: Response)
    ensures var j := Judge(k, a);
            && (j.Raise? <==> a.Answer? && (ReadsPlainText(k, a) || ForeignUncertain(k, a)))
            && (j.Halt? ==> j.status in {Deferred, Blocked, Failed})
            && (j.Advance? ==> j.status in {Created, Unchanged, Uncertain} && !a.status.name.Text? && j.text == a.Shown() && GoodRecord(a))
  {
  }

  /** A stage succeeds exactly when it advances, and then its result can be recorded. */
  lemma AdvanceIsRecorded(k: Stage, a: Response)
    ensures ResultOf(k, Judge(k, a)).Succeeded() <==> Judge(k, a).Advance?
    ensures Judge(k, a).Advance? ==> !Escapes(k, a)
  {
    JudgeShape(k, a);
    if Judge(k, a).Advance? {
      AdvancesIff(k, a);
      NamesAreClean(a.status.name);
      Tight(Clean(a.record.value.id, 240).value, 240);
    }
  }

  /** A text that begins and ends with something passes unchanged. */
  lemma Tight(s: string, max: nat)
    requires 0 < |s| <= max && !WhiteSpace(s[0]) && !WhiteSpace(s[|s| - 1])
    ensures Clean(s, max) == Some(s)
  {
  }

  lemma NamesAreClean(n: Name)
    requires !n.Text?
    ensures Clean(NameText(n), 120).Some? && Clean(NameText(n), 200).Some?
  {
    NamesAreEnumTexts(n);
    EnumTextIsClean(NameText(n));
  }

  lemma NamesAreEnumTexts(n: Name)
    requires !n.Text?
    ensures EnumText(NameText(n))
  {
  }

  lemma EscapesByJudgement(k: Stage, a: Response)
    ensures Escapes(k, a) <==>
      || (a.Answer? && (ReadsPlainText(k, a) || ForeignUncertain(k, a)))
      || (Judge(k, a).Halt? && (Clean(Judge(k, a).text, 120).None? || Clean(Judge(k, a).reason, 200).None?))
  {
    AdvanceIsRecorded(k, a);
    JudgeShape(k, a);
    ResultValidIff(k, Judge(k, a));
  }

  /** The stops that record the response's own reason, when it gives one. */
  predicate UsesReason(k: Stage, a: Response)
    requires a.Answer?
  {
    match k
    case 0 => !a.status.Equals(NCreated) && !a.status.Equals(NUnchanged)
    case 1 => a.status.Is(NBlocked) || a.verdict == NoVerdict
              || (a.verdict == Authorized && !a.status.Equals(NAuthorized) && !a.status.Equals(NUnchanged))
    case 2 => !a.status.Equals(NCreated) && !a.status.Equals(NUnchanged)
    case _ => !a.status.Equals(NCreated) && !a.status.Equals(NUnchanged) && !a.status.Equals(NUncertain)
  }

  /** The status shows a text that cannot be recorded, or a recorded reason cannot be. */
  predicate BadText(k: Stage, a: Response)
    requires a.Answer?
  {
    Clean(a.Shown(), 120).None? || (UsesReason(k, a) && a.reason.Some? && Clean(a.reason.value, 200).None?)
  }

  /** Exactly four things about a response let an exception escape: the value of a plain string
      is read, a foreign status is taken for completion, the status shows a text that is blank
      or longer than 120 characters, or a reason that is recorded is blank or longer than 200. */
  lemma EscapesIff(k: Stage, a: Response)
    ensures Escapes(k, a) <==> a.Answer? && (ReadsPlainText(k, a) || ForeignUncertain(k, a) || BadText(k, a))
  {
    EscapesByJudgement(k, a);
    JudgeShape(k, a);
    if a.Answer? {
      if !a.status.name.Text? {
        NamesAreClean(a.status.name);
      }
      if Judge(k, a).Halt? {
        HaltSource(k, a);
        LongerText(a.Shown());
        EnumTextIsClean(CONTRACT);
        if EnumText(Judge(k, a).reason) {
          EnumTextIsClean(Judge(k, a).reason);
        }
      }
      if UsesReason(k, a) || a.status.name.Text? {
        ReasonHalts(k, a);
      }
    } else {
      EnumTextIsClean("PUBLIC_STAGE_EXCEPTION");
    }
  }

  lemma LongerText(s: string)
    ensures Clean(s, 120).Some? ==> Clean(s, 200).Some?
  {
  }

  /** A recorded reason belongs to a stop, or the response raises before it. */
  lemma ReasonHalts(k: Stage, a: Response)
    requires a.Answer? && (UsesReason(k, a) || a.status.name.Text?)
    ensures Judge(k, a).Halt? || ReadsPlainText(k, a)
  {
  }

  /** Where the texts of a stop come from. */
  lemma HaltSource(k: Stage, a: Response)
    requires a.Answer? && Judge(k, a).Halt?
    ensures Judge(k, a).text == a.Shown() || (Judge(k, a).text == CONTRACT && !a.status.name.Text?)
    ensures UsesReason(k, a) && a.reason.Some? ==> Judge(k, a).reason == a.reason.value
    ensures !(UsesReason(k, a) && a.reason.Some?) ==> Judge(k, a).reason == a.Shown() || EnumText(Judge(k, a).reason)
  {
    match k
    case 0 => FixedReasons();
    case 1 => GateBReasons();
    case 2 => FixedReasons();
    case _ => FixedReasons();
  }

  lemma FixedReasons()
    ensures EnumText("RUNTIME_INPUT_REQUIRED") && EnumText("PERMIT_STAGE_FAILED")
    ensures EnumText("SUBMISSION_STAGE_FAILED") && EnumText(CONTRACT)
  {
  }

  /** The value of an enumeration member is short, and begins and ends with a letter, a digit
      or an underscore. */
  predicate EnumText(s: string) {
    1 <= |s| <= 120 && EnumChar(s[0]) && EnumChar(s[|s| - 1])
  }

  predicate EnumChar(c: char) {
    'A' <= c <= 'Z' || '0' <= c <= '9' || c == '_'
  }

  lemma EnumTextIsClean(s: string)
    requires EnumText(s)
    ensures Clean(s, 120).Some? && Clean(s, 200).Some?
  {
    Tight(s, 120);
    Tight(s, 200);
  }

  /** A result of the stage's own service: its status and its reason are enumeration members. */
  predicate Typed(k: Stage, a: Response) {
    a.Answer? ==> a.status.Member? && IsMember(k, a.status.name) && (a.reason.Some? ==> EnumText(a.reason.value))
  }

  /** Where the texts of a stop come from. */
  lemma HaltTexts(k: Stage, a: Response)
    requires Typed(k, a) && Judge(k, a).Halt?
    ensures EnumText(Judge(k, a).text) && EnumText(Judge(k, a).reason)
  {
    if a.Answer? {
      NamesAreEnumTexts(a.status.name);
      match k
      case 0 => HaltTextsNonSubmit(a);
      case 1 => HaltTextsGateB(a);
      case 2 => HaltTextsPermit(a);
      case _ => HaltTextsSubmission(a);
    }
  }

  lemma HaltTextsNonSubmit(a: Response)
    requires a.Answer? && EnumText(a.Shown()) && (a.reason.Some? ==> EnumText(a.reason.value)) && JudgeNonSubmit(a).Halt?
    ensures EnumText(JudgeNonSubmit(a).text) && EnumText(JudgeNonSubmit(a).reason)
  {
  }

  lemma HaltTextsGateB(a: Response)
    requires a.Answer? && EnumText(a.Shown()) && (a.reason.Some? ==> EnumText(a.reason.value)) && JudgeGateB(a).Halt?
    ensures EnumText(JudgeGateB(a).text) && EnumText(JudgeGateB(a).reason)
  {
    GateBReasons();
  }

  lemma GateBReasons()
    ensures EnumText("GATE_B_BLOCKED") && EnumText("USER_AUTHORIZATION_REQUIRED") && EnumText(CONTRACT)
  {
  }

  lemma HaltTextsPermit(a: Response)
    requires a.Answer? && EnumText(a.Shown()) && (a.reason.Some? ==> EnumText(a.reason.value)) && JudgePermit(a).Halt?
    ensures EnumText(JudgePermit(a).text) && EnumText(JudgePermit(a).reason)
  {
  }

  lemma HaltTextsSubmission(a: Response)
    requires a.Answer? && EnumText(a.Shown()) && (a.reason.Some? ==> EnumText(a.reason.value)) && JudgeSubmission(a).Halt?
    ensures EnumText(JudgeSubmission(a).text) && EnumText(JudgeSubmission(a).reason)
  {
  }

  /** So no response of the stages' own services makes an exception escape. */
  lemma TypedNeverEscapes(k: Stage, a: Response)
    requires Typed(k, a)
    ensures !Escapes(k, a)
  {
    EscapesByJudgement(k, a);
    if Judge(k, a).Halt? {
      HaltTexts(k, a);
      EnumTextIsClean(Judge(k, a).text);
      EnumTextIsClean(Judge(k, a).reason);
    }
  }

  /** Responses that do: a failure whose reason is empty, a status without text, a plain
      string instead of an enumeration member, and a foreign uncertain status. */
  function EmptyReason(): Response { Answer(Member(NFailed), Some(""), None, false, NoVerdict, false) }

  function EmptyStatus(): Response { Answer(OtherObject(Text(""), true), None, None, false, NoVerdict, false) }

  function PlainStatus(record: Record): Response { Answer(PlainText(NCreated), None, Some(record), false, NoVerdict, false) }

  function ForeignStatus(record: Record): Response { Answer(OtherEnum(NUncertain), None, Some(record), false, NoVerdict, false) }

  lemma UntypedEscapes(record: Record)
    requires Authorizes(record)
    ensures Escapes(0, EmptyReason()) && Escapes(2, EmptyStatus())
    ensures Escapes(2, PlainStatus(record)) && Escapes(3, ForeignStatus(record))
  {
    EmptyTextEscapes(0, EmptyReason());
    EmptyTextEscapes(2, EmptyStatus());
    RaiseEscapes(2, PlainStatus(record));
    RaiseEscapes(3, ForeignStatus(record));
  }

  lemma EmptyTextEscapes(k: Stage, a: Response)
    requires Judge(k, a).Halt? && (Judge(k, a).text == "" || Judge(k, a).reason == "")
    ensures Escapes(k, a)
  {
    EmptyIsNotClean();
    EscapesByJudgement(k, a);
  }

  lemma RaiseEscapes(k: Stage, a: Response)
    requires Judge(k, a).Raise?
    ensures Escapes(k, a)
  {
    ResultValidIff(k, Raise);
  }

  lemma EmptyIsNotClean()
    ensures Clean("", 120).None? && Clean("", 200).None?
  {
  }

  /** `current` and the tie-break: later completion first, then the larger identifier. */
  predicate NotAfter(rank: Identity -> int, a: Run, b: Run) {
    a.completedAt < b.completedAt || (a.completedAt == b.completedAt && rank(a.id) <= rank(b.id))
  }

  predicate Holds(runs: map<Identity, Run>, assemblyId: string, r: Run) {
    r.id in runs && runs[r.id] == r && r.id.binding.assemblyId == assemblyId
  }

  /** The run that `find_current_for_assembly` finds. */
  ghost predicate IsCurrent(runs: map<Identity, Run>, rank: Identity -> int, assemblyId: string, r: Run) {
    Holds(runs, assemblyId, r) && forall o :: Holds(runs, assemblyId, o) ==> NotAfter(rank, o, r)
  }

  /** Different contents have different identifiers. */
  ghost predicate Injective(rank: Identity -> int) {
    forall a, b :: rank(a) == rank(b) ==> a == b
  }

  lemma CurrentIsUnique(runs: map<Identity, Run>, rank: Identity -> int, assemblyId: string, a: Run, b: Run)
    requires Injective(rank) && IsCurrent(runs, rank, assemblyId, a) && IsCurrent(runs, rank, assemblyId, b)
    ensures a == b
  {
  }

  /** One subject's runs, write-once by identity.  `rank` orders identifiers. */
  class RunRepository {
    const rank: Identity -> int
    var runs: map<Identity, Run>

    ghost predicate Valid()
      reads this
    {
      Injective(rank) && Addressed() && forall id :: id in runs ==> WellFormed(runs[id])
    }

    /** Runs are stored under their identity. */
    ghost predicate Addressed()
      reads this
    {
      forall id :: id in runs ==> runs[id].id == id
    }

    constructor (rank: Identity -> int)
      requires Injective(rank)
      ensures Valid() && runs == map[] && this.rank == rank
    {
      this.rank, runs := rank, map[];
    }

    /** `save`: create, or return what is stored under the same identity. */
    method Save(r: Run) returns (stored: Run)
      requires Valid() && WellFormed(r)
      modifies this
      ensures Valid()
      ensures stored.id == r.id && runs == old(runs)[r.id := stored]
      ensures stored == if r.id in old(runs) then old(runs)[r.id] else r
    {
      if r.id in runs {
        assert runs == runs[r.id := runs[r.id]];
        return runs[r.id];
      }
      runs := runs[r.id := r];
      return r;
    }

    /** `find_current_for_assembly`: the maximum over the assembly's runs. */
    method FindCurrent(assemblyId: string) returns (r: Option<Run>)
      requires Addressed()
      ensures r.Some? ==> IsCurrent(runs, rank, assemblyId, r.value)
      ensures r.None? ==> forall o :: !Holds(runs, assemblyId, o)
    {
      r := None;
      var todo := runs.Keys;
      while todo != {}
        invariant todo <= runs.Keys
        invariant r.Some? ==> Holds(runs, assemblyId, r.value)
        invariant forall o :: Holds(runs, assemblyId, o) && o.id !in todo ==> r.Some? && NotAfter(rank, o, r.value)
        decreases |todo|
      {
        var id :| id in todo;
        todo := todo - {id};
        var candidate := runs[id];
        if id.binding.assemblyId == assemblyId && (r.None? || NotAfter(rank, r.value, candidate)) {
          r := Some(candidate);
        }
      }
    }
  }

  /** The judgements of a run, by stage. */
  function Judgements(answers: Stage -> Response): Stage -> Judgement {
    (k: Stage) => Judge(k, answers(k))
  }

  /** A stage goes on exactly with a successful result. */
  ghost predicate Sensible(judge: Stage -> Judgement) {
    forall k: Stage :: ResultOf(k, judge(k)).Succeeded() <==> judge(k).Advance?
  }

  lemma JudgementsSucceed(answers: Stage -> Response)
    ensures Sensible(Judgements(answers))
  {
    forall k: Stage ensures ResultOf(k, Judgements(answers)(k)).Succeeded() <==> Judgements(answers)(k).Advance? {
      AdvanceIsRecorded(k, answers(k));
    }
  }

  /** One call of a stage, with the identifier it is given. */
  datatype Call = Call(stage: Stage, id: string)

  /** What the stages make of their answers: each is called at most once, in order, with the
      identifier the previous one returned, until one halts. */
  ghost predicate Serial(assemblyId: string, judge: Stage -> Judgement, calls: seq<Call>) {
    && 1 <= |calls| <= 4
    && (forall i :: 0 <= i < |calls| ==> calls[i].stage == i)
    && calls[0].id == assemblyId
    && (forall i :: 0 <= i < |calls| - 1 ==>
          judge(i).Advance? && calls[i + 1].id == judge(i).record.id)
    && (|calls| < 4 ==> judge(|calls| - 1).Halt?
                        || !ResultOf(|calls| - 1, judge(|calls| - 1)).Valid())
  }

  /** The lineage of `n` called stages. */
  function LineageOf(judge: Stage -> Judgement, n: nat): (r: seq<StageResult>)
    requires n <= 4
    ensures |r| == n && forall i :: 0 <= i < n ==> r[i] == ResultOf(i, judge(i))
  {
    if n == 0 then [] else LineageOf(judge, n - 1) + [ResultOf(n - 1, judge(n - 1))]
  }

  /** After some stage calls: the identifier for the next one, unless a stage halted or its
      result could not be constructed. */
  ghost predicate Reached(assemblyId: string, judge: Stage -> Judgement, calls: seq<Call>, stages: seq<StageResult>,
                          next: Option<string>, raised: bool)
  {
    && 1 <= |calls| <= 4 && stages == LineageOf(judge, |calls|)
    && (forall i :: 0 <= i < |calls| ==> calls[i].stage == i)
    && calls[0].id == assemblyId
    && (forall i :: 0 <= i < |calls| - 1 ==>
          judge(i).Advance? && ResultOf(i, judge(i)).Valid() && calls[i + 1].id == judge(i).record.id)
    && var last := judge(|calls| - 1);
      && (raised <==> !ResultOf(|calls| - 1, last).Valid())
      && (next.Some? ==> !raised && last.Advance? && next.value == last.record.id)
      && (next.None? ==> raised || last.Halt?)
  }

  /** One stage: call it, record its result, and pass on its identifier. */
  method CallStage(ghost assemblyId: string, judge: Stage -> Judgement, k: Stage, id: string,
                   stages: seq<StageResult>, ghost calls: seq<Call>)
    returns (after: seq<StageResult>, next: Option<string>, raised: bool, ghost called: seq<Call>)
    requires |calls| == k
    requires k == 0 ==> stages == [] && id == assemblyId
    requires k > 0 ==> Reached(assemblyId, judge, calls, stages, Some(id), false)
    ensures called == calls + [Call(k, id)] && Reached(assemblyId, judge, called, after, next, raised)
  {
    called := calls + [Call(k, id)];
    var judgement := judge(k);
    var result := ResultOf(k, judgement);
    after := stages + [result];
    raised := !result.Valid();
    next := if raised || judgement.Halt? then None else Some(judgement.record.id);
    ReachedOneMore(assemblyId, judge, k, id, stages, calls, raised, next);
  }

  /** One more stage behind those that advanced. */
  lemma ReachedOneMore(assemblyId: string, judge: Stage -> Judgement, k: Stage, id: string, stages: seq<StageResult>,
                       calls: seq<Call>, raised: bool, next: Option<string>)
    requires |calls| == k
    requires k == 0 ==> stages == [] && id == assemblyId
    requires k > 0 ==> Reached(assemblyId, judge, calls, stages, Some(id), false)
    requires raised <==> !ResultOf(k, judge(k)).Valid()
    requires next.Some? ==> !raised && judge(k).Advance? && next.value == judge(k).record.id
    requires next.None? ==> raised || judge(k).Halt?
    ensures Reached(assemblyId, judge, calls + [Call(k, id)], stages + [ResultOf(k, judge(k))], next, raised)
  {
    assert stages == LineageOf(judge, k);
  }

  /** Once no stage is left to call, the calls were serial and the lineage is complete. */
  lemma StagesDone(assemblyId: string, judge: Stage -> Judgement, calls: seq<Call>, stages: seq<StageResult>,
                   next: Option<string>, raised: bool)
    requires Sensible(judge) && Reached(assemblyId, judge, calls, stages, next, raised)
    requires next.None? || |calls| == 4
    ensures Serial(assemblyId, judge, calls)
    ensures !raised ==> Lineage(stages)
  {
  }

  /** The four stages, one after the other. */
  method CallStages(assemblyId: string, judge: Stage -> Judgement)
    returns (stages: seq<StageResult>, next: Option<string>, raised: bool, ghost calls: seq<Call>)
    ensures Reached(assemblyId, judge, calls, stages, next, raised)
    ensures next.None? || |calls| == 4
  {
    stages, next, raised, calls := CallStage(assemblyId, judge, 0, assemblyId, [], []);
    if next.None? { return; }
    stages, next, raised, calls := CallStage(assemblyId, judge, 1, next.value, stages, calls);
    if next.None? { return; }
    stages, next, raised, calls := CallStage(assemblyId, judge, 2, next.value, stages, calls);
    if next.None? { return; }
    stages, next, raised, calls := CallStage(assemblyId, judge, 3, next.value, stages, calls);
  }

  /** The body of the run.  It ends in a well-formed run of exactly the stages called, or in
      an escaping exception when a text from outside cannot be recorded. */
  method ExecuteStages(a: Assembly, b: Binding, judge: Stage -> Judgement, now: int)
    returns (built: Option<Run>, ghost calls: seq<Call>)
    requires Sensible(judge) && Binds(a, b)
    ensures Serial(a.id, judge, calls)
    ensures var stages := LineageOf(judge, |calls|);
            && (built.Some? <==> Last(stages).Valid())
            && (built.Some? ==> Lineage(stages) && built.value == BuildRun(a, b, stages, OverallOf(Last(stages).status), now))
    ensures built.Some? ==> WellFormed(built.value)
  {
    var stages, next, raised;
    stages, next, raised, calls := CallStages(a.id, judge);
    StagesDone(a.id, judge, calls, stages, next, raised);
    if raised { return None, calls; }
    BuiltRunsAreWellFormed(a, b, stages, now);
    return Some(BuildRun(a, b, stages, OverallOf(Last(stages).status), now)), calls;
  }

  datatype Status = SCompleted | SUnchanged | SDeferred | SUncertain | SFailed

  datatype Result = Returned(status: Status, run: Option<Run>) | Escaped

  function StatusOf(o: Overall): Status {
    match o
    case Completed => SCompleted case RunDeferred => SDeferred case RunUncertain => SUncertain case RunFailed => SFailed
  }

  datatype Command = Command(
    wellTyped: bool, subject: string, assemblyId: string, now: int, gateA: bool, explicit: Option<Authorization>, metadata: string)

  datatype AssemblyRead = ReadRaises | NotFound | NotIntact | Found(assembly: Assembly)

  /** `_binding`. */
  function BindingOf(a: Assembly, c: Command): Binding {
    Binding(a.subject, a.id, a.hash, c.gateA, c.explicit, c.metadata)
  }

  predicate Accepted(c: Command, read: AssemblyRead) {
    && c.wellTyped && Clean(c.subject, 160).Some?
    && Clean(c.assemblyId, 240).Some? && AssemblyId(Clean(c.assemblyId, 240).value)
    && read.Found? && read.assembly.subject == Clean(c.subject, 160).value
  }

  /** The replay short-circuit: the assembly's current run is terminal, under this binding. */
  ghost predicate Replays(runs: map<Identity, Run>, rank: Identity -> int, assemblyId: string, b: Binding, r: Run) {
    IsCurrent(runs, rank, assemblyId, r) && r.id.binding == b && r.Terminal()
  }

  /** The short-circuit finds a run exactly when one replays. */
  method FindReplay(repo: RunRepository, assemblyId: string, b: Binding) returns (r: Option<Run>)
    requires repo.Valid()
    ensures r.Some? ==> Replays(repo.runs, repo.rank, assemblyId, b, r.value)
    ensures r.None? ==> forall cur :: !Replays(repo.runs, repo.rank, assemblyId, b, cur)
  {
    r := repo.FindCurrent(assemblyId);
    forall o | IsCurrent(repo.runs, repo.rank, assemblyId, o) ensures r == Some(o) {
      CurrentIsUnique(repo.runs, repo.rank, assemblyId, o, r.value);
    }
    if r.Some? && (r.value.id.binding != b || !r.value.Terminal()) {
      r := None;
    }
  }

  lemma LastEscapes(answers: Stage -> Response, n: nat)
    requires 1 <= n <= 4 && !Last(LineageOf(Judgements(answers), n)).Valid()
    ensures !Typed(n - 1, answers(n - 1))
  {
    assert Escapes(n - 1, answers(n - 1));
    if Typed(n - 1, answers(n - 1)) {
      TypedNeverEscapes(n - 1, answers(n - 1));
    }
  }

  /** `run_application_execution`.  No stage is called exactly when the command is refused,
      the repository cannot be read, or the current run replays; and a replay is exactly
      the case in which the answer is UNCHANGED. */
  method RunApplicationExecution(c: Command, read: AssemblyRead, answers: Stage -> Response,
                                 repo: RunRepository, readable: bool, saves: bool)
    returns (r: Result, ghost calls: seq<Call>)
    requires repo.Valid()
    modifies repo
    ensures repo.Valid()
    ensures calls == [] <==>
      || !Accepted(c, read) || !readable
      || exists cur :: Replays(old(repo.runs), repo.rank, read.assembly.id, BindingOf(read.assembly, c), cur)
    ensures r.Returned? && r.status == SUnchanged <==> Accepted(c, read) && readable && calls == []
    ensures r.Returned? && r.status == SUnchanged ==>
      r.run.Some? && Replays(old(repo.runs), repo.rank, read.assembly.id, BindingOf(read.assembly, c), r.run.value)
    ensures calls == [] ==> repo.runs == old(repo.runs)
    ensures r.Returned? && r.run.Some? ==> read.Found? && Holds(repo.runs, read.assembly.id, r.run.value)
    ensures calls != [] ==>
      Executed(read.assembly, BindingOf(read.assembly, c), Judgements(answers), saves, c.now, old(repo.runs), repo.runs, r, calls)
    ensures (forall k: Stage :: Typed(k, answers(k))) ==> r != Escaped
  {
    calls := [];
    if !Accepted(c, read) || !readable { return Returned(SFailed, None), calls; }
    var a := read.assembly;
    var b := BindingOf(a, c);
    var replay := FindReplay(repo, a.id, b);
    if replay.Some? { return Returned(SUnchanged, replay), calls; }
    JudgementsSucceed(answers);
    r, calls := RunStages(a, b, Judgements(answers), c.now, repo, saves);
    if r == Escaped {
      LastEscapes(answers, |calls|);
    }
  }

  /** The stages and the persistence of their run. */
  method RunStages(a: Assembly, b: Binding, judge: Stage -> Judgement, now: int, repo: RunRepository, saves: bool)
    returns (r: Result, ghost calls: seq<Call>)
    requires repo.Valid() && Sensible(judge) && Binds(a, b)
    modifies repo
    ensures repo.Valid() && calls != []
    ensures Executed(a, b, judge, saves, now, old(repo.runs), repo.runs, r, calls)
    ensures r.Returned? && r.run.Some? ==> Holds(repo.runs, a.id, r.run.value)
    ensures !(r.Returned? && r.status == SUnchanged)
  {
    var built;
    built, calls := ExecuteStages(a, b, judge, now);
    if built.None? { return Escaped, calls; }
    if !saves { return Returned(SFailed, None), calls; }
    var stored := repo.Save(built.value);
    return Returned(StatusOf(built.value.id.overall), Some(stored)), calls;
  }

  /** What a call that reached the stages did: the lineage of the stages it called is stored
      and returned, unless its last result cannot be recorded or the repository fails. */
  ghost predicate Executed(a: Assembly, b: Binding, judge: Stage -> Judgement, saves: bool, now: int,
                           before: map<Identity, Run>, after: map<Identity, Run>, r: Result, calls: seq<Call>)
  {
    && Serial(a.id, judge, calls)
    && var stages := LineageOf(judge, |calls|);
      && (r == Escaped <==> !Last(stages).Valid())
      && (r == Escaped || !saves ==> after == before && (r.Returned? ==> r.run.None?))
      && (r.Returned? && saves ==>
            && r.run.Some? && r.status == StatusOf(OverallOf(Last(stages).status))
            && Stored(before, after, r.run.value, BuildRun(a, b, stages, OverallOf(Last(stages).status), now)))
  }

  /** The stored run is the built one, or the earlier one of the same content. */
  predicate Stored(before: map<Identity, Run>, after: map<Identity, Run>, stored: Run, built: Run) {
    && stored == (if built.id in before then before[built.id] else built)
    && after == before[built.id := stored]
  }

  /** All runs of the assembly have one binding and ended by `last`, and a terminal run is
      later than every other. */
  ghost predicate Ordered(runs: map<Identity, Run>, assemblyId: string, b: Binding, last: int) {
    && (forall r :: Holds(runs, assemblyId, r) ==> r.id.binding == b && r.completedAt <= last)
    && (forall t, r :: Holds(runs, assemblyId, t) && Holds(runs, assemblyId, r) && t.Terminal() && r != t ==>
          r.completedAt < t.completedAt)
  }

  /** In an ordered repository a terminal run is the current one, so it replays. */
  lemma TerminalReplays(runs: map<Identity, Run>, rank: Identity -> int, assemblyId: string, b: Binding, last: int, t: Run)
    requires Ordered(runs, assemblyId, b, last) && Holds(runs, assemblyId, t) && t.Terminal()
    ensures Replays(runs, rank, assemblyId, b, t)
  {
  }

  /** A call at a later time keeps the repository ordered. */
  lemma StoringKeepsOrder(before: map<Identity, Run>, after: map<Identity, Run>, assemblyId: string, b: Binding,
                          last: int, stored: Run, built: Run)
    requires Ordered(before, assemblyId, b, last) && (forall id :: id in before ==> before[id].id == id)
    requires forall t :: Holds(before, assemblyId, t) ==> !t.Terminal()
    requires Stored(before, after, stored, built) && built.id.binding == b && built.completedAt > last
    requires b.assemblyId == assemblyId
    ensures Ordered(after, assemblyId, b, built.completedAt)
  {
  }

  datatype Invocation = Invocation(command: Command, answers: Stage -> Response, readable: bool, saves: bool)

  /** One call of a history under one binding. */
  method Step(x: Invocation, a: Assembly, b: Binding, repo: RunRepository, ghost last: int)
    returns (r: Result, ghost calls: seq<Call>)
    requires repo.Valid() && Ordered(repo.runs, a.id, b, last)
    requires last < x.command.now && BindingOf(a, x.command) == b
    modifies repo
    ensures repo.Valid() && Ordered(repo.runs, a.id, b, x.command.now)
    ensures forall t :: Holds(old(repo.runs), a.id, t) ==> Holds(repo.runs, a.id, t)
    ensures r.Returned? && r.run.Some? ==> Holds(repo.runs, a.id, r.run.value)
    ensures forall t :: Holds(old(repo.runs), a.id, t) && t.Terminal() && Open(x, a) ==>
      r == Returned(SUnchanged, Some(t)) && calls == []
  {
    ghost var before := repo.runs;
    r, calls := RunApplicationExecution(x.command, Found(a), x.answers, repo, x.readable, x.saves);
    forall t | Holds(before, a.id, t) && t.Terminal() ensures Replays(before, repo.rank, a.id, b, t) {
      TerminalReplays(before, repo.rank, a.id, b, last, t);
    }
    if calls == [] {
      LaterBound(before, a.id, b, last, x.command.now);
    } else {
      ExecutedKeepsOrder(x, a, b, last, before, repo.runs, r, calls);
    }
    if r.Returned? && r.status == SUnchanged {
      forall t | Replays(before, repo.rank, a.id, b, t) ensures r.run == Some(t) {
        CurrentIsUnique(before, repo.rank, a.id, t, r.run.value);
      }
    }
  }

  /** A call that reaches the stages keeps the repository ordered, and keeps every run. */
  lemma ExecutedKeepsOrder(x: Invocation, a: Assembly, b: Binding, last: int, before: map<Identity, Run>, after: map<Identity, Run>,
                           r: Result, calls: seq<Call>)
    requires Ordered(before, a.id, b, last) && (forall id :: id in before ==> before[id].id == id)
    requires forall t :: Holds(before, a.id, t) ==> !t.Terminal()
    requires last < x.command.now && BindingOf(a, x.command) == b
    requires Executed(a, b, Judgements(x.answers), x.saves, x.command.now, before, after, r, calls)
    ensures Ordered(after, a.id, b, x.command.now)
    ensures forall t :: Holds(before, a.id, t) ==> Holds(after, a.id, t)
  {
    if r.Returned? && x.saves {
      var stages := LineageOf(Judgements(x.answers), |calls|);
      StoringKeepsOrder(before, after, a.id, b, last, r.run.value,
                        BuildRun(a, b, stages, OverallOf(Last(stages).status), x.command.now));
    } else {
      LaterBound(before, a.id, b, last, x.command.now);
    }
  }

  lemma LaterBound(runs: map<Identity, Run>, assemblyId: string, b: Binding, last: int, now: int)
    requires Ordered(runs, assemblyId, b, last) && last <= now
    ensures Ordered(runs, assemblyId, b, now)
  {
  }

  /** Every terminal result is repeated by all later calls that are accepted and can read. */
  ghost predicate Honoured(history: seq<Invocation>, a: Assembly, results: seq<Result>, calls: seq<seq<Call>>) {
    && |results| == |calls| <= |history|
    && forall i, j :: 0 <= i < j < |results| ==> Repeats(history[j], a, results[i], results[j], calls[j])
  }

  predicate Repeats(x: Invocation, a: Assembly, first: Result, second: Result, calls: seq<Call>) {
    TerminalResult(first) && Open(x, a) ==> second == Returned(SUnchanged, first.run) && calls == []
  }

  predicate Open(x: Invocation, a: Assembly) {
    Accepted(x.command, Found(a)) && x.readable
  }

  lemma HonouredGrows(history: seq<Invocation>, a: Assembly, results: seq<Result>, calls: seq<seq<Call>>, r: Result, c: seq<Call>)
    requires Honoured(history, a, results, calls) && |results| < |history|
    requires forall i :: 0 <= i < |results| ==> Repeats(history[|results|], a, results[i], r, c)
    ensures Honoured(history, a, results + [r], calls + [c])
  {
  }

  /** Replay over every history with one execution binding and increasing times: once a
      completed or uncertain run is returned, every later call that is accepted and can read
      the repository returns that run unchanged and calls no stage. */
  method RunAll(history: seq<Invocation>, a: Assembly, b: Binding, repo: RunRepository, ghost start: int)
    returns (results: seq<Result>, ghost calls: seq<seq<Call>>)
    requires repo.Valid() && Ordered(repo.runs, a.id, b, start)
    requires forall i :: 0 <= i < |history| ==> start < history[i].command.now && BindingOf(a, history[i].command) == b
    requires forall i, j :: 0 <= i < j < |history| ==> history[i].command.now < history[j].command.now
    modifies repo
    ensures repo.Valid() && |results| == |history| && Honoured(history, a, results, calls)
  {
    results, calls := [], [];
    ghost var last := start;
    for i := 0 to |history|
      invariant repo.Valid() && |results| == i && Ordered(repo.runs, a.id, b, last)
      invariant last == if i == 0 then start else history[i - 1].command.now
      invariant AllHeld(repo.runs, a.id, results)
      invariant Honoured(history, a, results, calls)
    {
      var r;
      ghost var c;
      ghost var before := repo.runs;
      r, c := Step(history[i], a, b, repo, last);
      HeldReplay(before, repo.runs, history[i], a, results, r, c);
      HonouredGrows(history, a, results, calls, r, c);
      results, calls := results + [r], calls + [c];
      last := history[i].command.now;
    }
  }

  /** The terminal results so far stand in the repository. */
  ghost predicate AllHeld(runs: map<Identity, Run>, assemblyId: string, results: seq<Result>) {
    forall k :: 0 <= k < |results| && TerminalResult(results[k]) ==> Holds(runs, assemblyId, results[k].run.value)
  }

  lemma HeldReplay(before: map<Identity, Run>, after: map<Identity, Run>, x: Invocation, a: Assembly,
                   results: seq<Result>, r: Result, c: seq<Call>)
    requires AllHeld(before, a.id, results)
    requires forall t :: Holds(before, a.id, t) ==> Holds(after, a.id, t)
    requires r.Returned? && r.run.Some? ==> Holds(after, a.id, r.run.value)
    requires forall t :: Holds(before, a.id, t) && t.Terminal() && Open(x, a) ==> r == Returned(SUnchanged, Some(t)) && c == []
    ensures AllHeld(after, a.id, results + [r])
    ensures forall i :: 0 <= i < |results| ==> Repeats(x, a, results[i], r, c)
  {
  }

  predicate TerminalResult(r: Result) {
    r.Returned? && r.run.Some? && r.run.value.Terminal()
  }

  /** The replay needs the one binding: a later run of the same assembly under another
      binding hides the terminal one, and its stages would be called again. */
  lemma OtherBindingHidesTerminal(rank: Identity -> int, done: Run, later: Run)
    requires done.id.binding.assemblyId == later.id.binding.assemblyId && done.id.binding != later.id.binding
    requires done.Terminal() && done.completedAt < later.completedAt
    ensures var runs, assemblyId := map[done.id := done, later.id := later], done.id.binding.assemblyId;
            Holds(runs, assemblyId, done) && forall cur :: !Replays(runs, rank, assemblyId, done.id.binding, cur)
  {
    var runs, assemblyId := map[done.id := done, later.id := later], done.id.binding.assemblyId;
    assert Holds(runs, assemblyId, later);
    forall cur | IsCurrent(runs, rank, assemblyId, cur) ensures cur.id.binding != done.id.binding {
      assert NotAfter(rank, later, cur);
    }
  }

  function ExampleBinding(gateA: bool): Binding {
    Binding("s", ASSEMBLY_PREFIX + DIGEST, DIGEST, gateA, None, "m")
  }

  function ExampleStage(k: Stage): StageResult {
    StageResult(k, Created, "CREATED", Some(Record("r", DIGEST)), None)
  }

  function ExampleStop(): StageResult {
    StageResult(0, Deferred, "DEFERRED", None, Some("GATE"))
  }

  lemma ExampleStagesAreValid()
    ensures (forall k: Stage :: ExampleStage(k).Valid()) && ExampleStop().Valid()
  {
    Tight("r", 240);
    Tight("CREATED", 120);
    Tight("DEFERRED", 120);
    Tight("GATE", 200);
  }

  function ExampleLineage(gateA: bool): (stages: seq<StageResult>)
    ensures |stages| == if gateA then 4 else 1
  {
    if gateA then [ExampleStage(0), ExampleStage(1), ExampleStage(2), ExampleStage(3)] else [ExampleStop()]
  }

  /** Such runs exist: one that was completed, and a later one deferred at the first stage. */
  function Example(gateA: bool): Run {
    var stages := ExampleLineage(gateA);
    BuildRun(EXAMPLE_ASSEMBLY, ExampleBinding(gateA), stages, OverallOf(Last(stages).status), if gateA then 1 else 2)
  }

  lemma ExamplesAreWellFormed()
    ensures WellFormed(Example(true)) && WellFormed(Example(false))
    ensures Example(true).Terminal() && Example(true).completedAt < Example(false).completedAt
    ensures Example(true).id.binding != Example(false).id.binding
  {
    ExampleLineages(true);
    ExampleLineages(false);
    BuiltRunsAreWellFormed(EXAMPLE_ASSEMBLY, ExampleBinding(true), ExampleLineage(true), 1);
    BuiltRunsAreWellFormed(EXAMPLE_ASSEMBLY, ExampleBinding(false), ExampleLineage(false), 2);
  }

  lemma ExampleLineages(gateA: bool)
    ensures Lineage(ExampleLineage(gateA)) && Last(ExampleLineage(gateA)).status == if gateA then Created else Deferred
  {
    ExampleStagesAreValid();
  }
}
