/** The Workday state machine (adapters/workday.py): observe, bind to the posting, act on the
    stage, and stop when the page does not move.  The page is a script of observations and
    answers; login, registration and e-mail verification keep only whether they advanced. */
module Workday {
  import opened Common
  import opened Outcomes
  import opened Ledger
  import opened GateB
  import opened AtsProtocol
  import opened WorkdayIdentity
  import opened WorkdaySubmit

  datatype FieldKind = Inert | Upload | Choice | RadioButton | Tick | Typed

  /** One control.  `value` is the resolved verified value; inert controls are passwords,
      submits and buttons. */
  datatype WorkdayField = WorkdayField(
    selector: string, canonical: string, title: string, kind: FieldKind, required: bool,
    sensitive: bool, group: string, value: Option<string>, usable: bool)

  /** What the page does when the control is written and read back; `usable` above is false
      for a missing file and for a tick whose value is not a boolean. */
  datatype Write = WriteRaises | NotSelected | Written(matches: bool)

  datatype Binding = Binding(selector: string, canonical: string, title: string, kind: FieldKind, value: string)

  datatype StageFill = StageFill(
    unresolved: set<string>, sensitive: set<string>, mismatches: set<string>, expected: seq<Binding>)

  function BindingOf(f: WorkdayField): Binding
    requires f.value.Some?
  {
    Binding(f.selector, f.canonical, f.title, f.kind, f.value.value)
  }

  /** A radio whose group was already taken up by an earlier one. */
  predicate LaterRadio(fields: seq<WorkdayField>, i: nat) {
    && i < |fields| && fields[i].kind == RadioButton
    && exists j :: 0 <= j < i && fields[j].kind == RadioButton && fields[j].value.Some? && fields[j].group == fields[i].group
  }

  /** The control was written and its exact value read back. */
  predicate ReadBack(fields: seq<WorkdayField>, writes: seq<Write>, i: nat) {
    && i < |fields| && fields[i].kind != Inert && fields[i].value.Some?
    && (fields[i].kind in {Upload, Tick} ==> fields[i].usable)
    && !LaterRadio(fields, i)
    && At(writes, i, WriteRaises) == Written(true)
  }

  /** `fill_workday_fields`: when nothing is left open, every required control that can be
      filled was read back, except later radios of a group; and only read-backs that
      matched are recorded. */
  method FillWorkdayFields(fields: seq<WorkdayField>, writes: seq<Write>) returns (r: StageFill)
    ensures r.unresolved == {} && r.sensitive == {} && r.mismatches == {} <==>
      forall i :: 0 <= i < |fields| && fields[i].required && fields[i].kind != Inert ==>
        ReadBack(fields, writes, i) || (LaterRadio(fields, i) && fields[i].value.Some?)
    ensures forall e :: e in r.expected <==> exists i :: 0 <= i < |fields| && ReadBack(fields, writes, i) && e == BindingOf(fields[i])
  {
    var unresolved, sensitive, mismatches: set<string> := {}, {}, {};
    var expected: seq<Binding> := [];
    var groups: set<string> := {};
    for i := 0 to |fields|
      invariant unresolved == {} && sensitive == {} && mismatches == {} <==>
        forall j :: 0 <= j < i && fields[j].required && fields[j].kind != Inert ==>
          ReadBack(fields, writes, j) || (LaterRadio(fields, j) && fields[j].value.Some?)
      invariant forall e :: e in expected <==> exists j :: 0 <= j < i && ReadBack(fields, writes, j) && e == BindingOf(fields[j])
      invariant forall g :: g in groups <==>
        exists j :: 0 <= j < i && fields[j].kind == RadioButton && fields[j].value.Some? && fields[j].group == g
    {
      var f := fields[i];
      ghost var u, s, m, taken := unresolved, sensitive, mismatches, groups;
      assert f.kind == RadioButton ==> (f.group in taken <==> LaterRadio(fields, i));
      var bound := false;
      if f.kind != Inert {
        var verdict := Attempt(f, At(writes, i, WriteRaises), f.kind == RadioButton && f.group in groups);
        if f.kind == RadioButton && f.value.Some? {
          groups := groups + {f.group};
        }
        match verdict {
          case Bound =>
            expected := expected + [BindingOf(f)];
          case Skipped =>
          case Open =>
            if f.required && f.sensitive { sensitive := sensitive + {f.title}; }
            if f.required && !f.sensitive { unresolved := unresolved + {f.title}; }
          case NotRetained =>
            if f.required { mismatches := mismatches + {f.title}; }
        }
        assert verdict == Bound <==> ReadBack(fields, writes, i);
        assert verdict == Skipped <==> f.value.Some? && LaterRadio(fields, i);
        assert u <= unresolved && s <= sensitive && m <= mismatches;
        assert f.required && verdict in {Open, NotRetained} ==>
          f.title in unresolved || f.title in sensitive || f.title in mismatches;
      }
    }
    return StageFill(unresolved, sensitive, mismatches, expected);
  }

  datatype FieldResult = Bound | Skipped | Open | NotRetained

  /** One control of that loop. */
  function Attempt(f: WorkdayField, write: Write, groupTaken: bool): FieldResult {
    if f.value.None? then Open
    else if f.kind in {Upload, Tick} && !f.usable then Open
    else if f.kind == RadioButton && groupTaken then Skipped
    else
      match write
      case WriteRaises => Open
      case NotSelected => Open
      case Written(matches) => if matches then Bound else NotRetained
  }

  datatype Stage =
    | Job | Login | Register | VerifyEmail | Mfa | CaptchaWall | Locked
    | Autofill | MyInformation | MyExperience | Questions | Disclosures | SelfIdentify
    | ReviewPage | ConfirmationPage | Loading | Other

  function StageName(s: Stage): (name: string)
    ensures ':' !in name
  {
    if FormStage(s) then FormStageName(s) else PageName(s)
  }

  function FormStageName(s: Stage): (name: string)
    requires FormStage(s)
    ensures ':' !in name
  {
    match s
    case Autofill => "autofillWithResume" case MyInformation => "myInformation" case MyExperience => "myExperience"
    case Questions => "applicationQuestions" case Disclosures => "voluntaryDisclosures"
    case SelfIdentify => "selfIdentify"
  }

  function PageName(s: Stage): (name: string)
    requires !FormStage(s)
    ensures ':' !in name
  {
    match s
    case Job => "job" case Login => "login" case Register => "register"
    case VerifyEmail => "email_verification" case Mfa => "mfa" case CaptchaWall => "captcha"
    case Locked => "account_locked" case ReviewPage => "review"
    case ConfirmationPage => "confirmation" case Loading => "loading" case Other => "other"
  }

  predicate FormStage(s: Stage) {
    s.Autofill? || s.MyInformation? || s.MyExperience? || s.Questions? || s.Disclosures? || s.SelfIdentify?
  }

  /** The stages on which the adapter acts repeatedly, and must not hammer. */
  predicate ActionStage(s: Stage) {
    s.Job? || s.Login? || s.Register? || s.VerifyEmail? || FormStage(s)
  }

  datatype Observation = Observation(stage: Stage, url: Url, urlText: string, postingUrls: seq<Url>, ids: string) {
    function Signature(): string { Joined(StageName(stage), urlText, ids) }
  }

  function Joined(stage: string, url: string, ids: string): string {
    stage + ":" + url + ":" + ids
  }

  /** Equal signatures come from equal stages, because no stage name holds a colon. */
  lemma SameSignatureSameStage(a: Observation, b: Observation)
    requires a.Signature() == b.Signature()
    ensures a.stage == b.stage
  {
    JoinedDeterminesStage(StageName(a.stage), a.urlText, a.ids, StageName(b.stage), b.urlText, b.ids);
    NamesDiffer(a.stage, b.stage);
  }

  lemma JoinedDeterminesStage(s: string, x: string, y: string, t: string, z: string, w: string)
    requires ':' !in s && ':' !in t && Joined(s, x, y) == Joined(t, z, w)
    ensures s == t
  {
    assert Joined(s, x, y) == s + (":" + x + ":" + y);
    assert Joined(t, z, w) == t + (":" + z + ":" + w);
    UpToColon(s, t, ":" + x + ":" + y, ":" + z + ":" + w);
  }

  lemma {:induction false} UpToColon(s: string, t: string, u: string, v: string)
    requires ':' !in s && ':' !in t && u != "" && v != "" && u[0] == ':' && v[0] == ':' && s + u == t + v
    ensures s == t
  {
    assert s != "" ==> (s + u)[0] == s[0];
    assert t != "" ==> (t + v)[0] == t[0];
    if s != "" && t != "" {
      assert (s + u)[1..] == s[1..] + u && (t + v)[1..] == t[1..] + v;
      UpToColon(s[1..], t[1..], u, v);
    }
  }

  lemma NamesDiffer(a: Stage, b: Stage)
    requires StageName(a) == StageName(b)
    ensures a == b
  {
    match a {
      case Job => case Login => case Register => case VerifyEmail => case Mfa => case CaptchaWall => case Locked =>
      case Autofill => case MyInformation => case MyExperience => case Questions => case Disclosures =>
      case SelfIdentify => case ReviewPage => case ConfirmationPage => case Loading => case Other =>
    }
  }

  datatype WorkdayContext = WorkdayContext(
    runId: string, jobId: string, requestSubmit: bool, navigate: bool, maxSteps: int,
    persistedAttestation: string, hasVerifiedValues: bool, permit: Option<Token>, requested: Option<Identity>)
  {
    function Pair(): (string, string) { (runId, jobId) }
  }

  /** One form stage: its controls, what writing them does, the re-validation just before
      Next, and whether Next can be clicked. */
  datatype StageScript = StageScript(fields: seq<WorkdayField>, writes: seq<Write>, recheck: Binding -> bool, next: bool)

  /** One Review page. */
  datatype ReviewScript = ReviewScript(
    unresolved: bool, current: seq<Binding>, surface: string, attestation: string, fingerprint: string,
    matches: Binding -> bool, around: Surroundings, lockAnswers: bool, clickWorks: bool, polls: seq<bool>)

  /** A result that hands over to the person, or fails; never a submission. */
  type HandOver = s: Status | s != SubmittedVerified witness NeedsUserLogin

  /** Where an exception leaves one iteration: at the look at the page, or before or after the
      stage's action has had its effect. */
  datatype Break = Holds | BreaksAtLook | BreaksBefore | BreaksAfter

  /** One run, by iteration; `halts` is how login, registration, e-mail verification and the
      Apply click end when they do not advance. */
  datatype RunScript = RunScript(
    loads: bool, see: nat -> Observation, reloads: nat -> bool, halts: nat -> Option<HandOver>,
    form: nat -> StageScript, review: nat -> ReviewScript, breaks: nat -> Break)
  {
    /** Nobody else writes to the ledger during the run. */
    ghost predicate Alone() { forall i :: review(i).around.Alone() }
  }

  function Reply(ctx: WorkdayContext, status: Status, reason: Reason): Outcome {
    Outcome(ctx.runId, ctx.jobId, status, reason, "workday", status == FailedRetryable, "", [], NO_DETAILS)
  }

  /** Every required control of the stage is bound: exactly read back during the fill and
      again just before Next, or a later radio of a group. */
  ghost predicate StageBound(s: StageScript) {
    && (forall i :: 0 <= i < |s.fields| && s.fields[i].required && s.fields[i].kind != Inert ==>
          ReadBack(s.fields, s.writes, i) || (LaterRadio(s.fields, i) && s.fields[i].value.Some?))
    && (forall i :: 0 <= i < |s.fields| && ReadBack(s.fields, s.writes, i) ==> s.recheck(BindingOf(s.fields[i])))
  }

  /** The pages of a run as its decisions see them, by iteration. */
  datatype Track = Track(stage: nat -> Stage, verdict: nat -> Verdict, signature: nat -> string)

  function TrackOf(requested: Identity, see: nat -> Observation): Track {
    Track((i: nat) => see(i).stage,
          (i: nat) => PageStatus(requested, see(i).url, see(i).postingUrls),
          (i: nat) => see(i).Signature())
  }

  /** Signatures are never empty, and equal ones come from equal stages. */
  ghost predicate Faithful(t: Track) {
    && (forall i: nat :: t.signature(i) != "")
    && (forall i: nat, j: nat :: t.signature(i) == t.signature(j) ==> t.stage(i) == t.stage(j))
  }

  lemma TracksAreFaithful(requested: Identity, see: nat -> Observation)
    ensures Faithful(TrackOf(requested, see))
  {
    var t := TrackOf(requested, see);
    forall i: nat, j: nat | t.signature(i) == t.signature(j) ensures t.stage(i) == t.stage(j) {
      SameSignatureSameStage(see(i), see(j));
    }
    forall i: nat ensures t.signature(i) != "" {
      assert t.signature(i) == Joined(StageName(see(i).stage), see(i).urlText, see(i).ids);
    }
  }

  /** How often the signature of iteration `i` has just been repeated. */
  function Repeats(t: Track, i: nat): nat {
    if i > 0 && t.signature(i) == t.signature(i - 1) then Repeats(t, i - 1) + 1 else 0
  }

  /** In a block of iterations with one signature, repeats count up from the block's start. */
  lemma {:induction false} RepeatsInBlock(t: Track, a: nat, i: nat)
    requires a <= i && forall k :: a <= k <= i ==> t.signature(k) == t.signature(a)
    ensures Repeats(t, i) >= i - a
  {
    if a < i {
      RepeatsInBlock(t, a, i - 1);
      assert t.signature(i - 1) == t.signature(a) == t.signature(i);
    }
  }

  /** So acting only below two repeats means at most two actions in any such block. */
  lemma BlockActionsBound(t: Track, acted: set<nat>, a: nat, b: nat)
    requires forall i :: i in acted ==> Repeats(t, i) < 2
    requires forall k :: a <= k < b ==> t.signature(k) == t.signature(a)
    ensures |set i | i in acted && a <= i < b| <= 2
  {
    var inside := set i | i in acted && a <= i < b;
    forall i | i in inside ensures i in {a, a + 1} {
      RepeatsInBlock(t, a, i);
    }
    SubsetSize(inside, {a, a + 1});
  }

  /** And a run that only goes on below four repeats leaves such a block by its fifth page. */
  lemma BlockLengthBound(t: Track, iterations: nat, a: nat, b: nat)
    requires forall i :: 0 <= i < iterations - 1 ==> Repeats(t, i) < 4
    requires a < b <= iterations && forall k :: a <= k < b ==> t.signature(k) == t.signature(a)
    ensures b - a <= 5
  {
    if b - a > 5 {
      RepeatsInBlock(t, a, a + 4);
    }
  }

  lemma {:induction false} SubsetSize(x: set<nat>, y: set<nat>)
    requires x <= y
    ensures |x| <= |y|
  {
    if x != {} {
      var e :| e in x;
      SubsetSize(x - {e}, y - {e});
    }
  }

  /** Some page up to `i` matched the requested posting, and none was of another posting. */
  ghost predicate BoundBy(t: Track, i: nat) {
    && (exists j: nat :: j <= i && t.verdict(j) == Match)
    && (forall j: nat :: j <= i ==> t.verdict(j) != Mismatch)
  }

  /** Every step but the confirmation of a waiting call stays within the clicks. */
  lemma StepsKeepWithin(s: State, step: WorkdaySubmit.Step)
    requires !step.Confirm? && forall p :: WithinClicks(s, p)
    ensures forall p :: WithinClicks(Next(s, step), p)
  {
    forall p ensures WithinClicks(Next(s, step), p) {
      assert WithinClicks(s, p);
      StepBalance(s, step, p);
    }
  }

  /** No call is waiting, and verified and pending submissions stay within the clicks. */
  ghost predicate Settled(s: State) {
    s.waiting == map[] && forall p :: WithinClicks(s, p)
  }

  /** The bindings stored for a run and job. */
  function Lookup(stored: map<Pair, map<(string, string), Binding>>, p: Pair): map<(string, string), Binding> {
    if p in stored then stored[p] else map[]
  }

  /** The bindings of a run and job after these were read back, in order. */
  function Recalled(known: map<(string, string), Binding>, bindings: seq<Binding>): map<(string, string), Binding> {
    if bindings == [] then known
    else
      var last := bindings[|bindings| - 1];
      Recalled(known, bindings[..|bindings| - 1])[(last.canonical, last.selector) := last]
  }

  /** Nothing is forgotten, everything read back is known, and nothing else is. */
  lemma {:induction false} RecalledFacts(known: map<(string, string), Binding>, bindings: seq<Binding>)
    ensures known.Keys <= Recalled(known, bindings).Keys
    ensures forall k :: k in Recalled(known, bindings) ==>
      Recalled(known, bindings)[k] in bindings || (k in known && Recalled(known, bindings)[k] == known[k])
    ensures forall b :: b in bindings ==> (b.canonical, b.selector) in Recalled(known, bindings)
  {
    if bindings != [] {
      var n := |bindings| - 1;
      RecalledFacts(known, bindings[..n]);
      assert bindings == bindings[..n] + [bindings[n]];
    }
  }

  /** What the adapter and the document keep between two runs. */
  datatype Memory = Memory(
    pending: set<Pair>, stored: map<Pair, map<(string, string), Binding>>, locks: set<string>)

  class WorkdayAdapter {
    // The counts and the waiting calls are bookkeeping of the model.
    var pending: set<Pair>
    var stored: map<Pair, map<(string, string), Binding>>
    var clicks: multiset<Pair>
    var verified: multiset<Pair>
    var waiting: map<nat, Pair>

    function View(): State
      reads `pending, `clicks, `verified, `waiting
    {
      State.State(pending, clicks, verified, waiting)
    }

    /** No other call is under way, and for every run and job verified and pending submissions
        stay within the clicks. */
    ghost predicate Valid()
      reads `pending, `clicks, `verified, `waiting
    {
      Settled(View())
    }

    constructor ()
      ensures Valid() && View() == START && stored == map[]
    {
      pending, stored, clicks, verified, waiting := {}, map[], multiset{}, multiset{}, map[];
    }

    /** The adapter in the middle of its life: what it remembers, and the clicks still pending. */
    constructor Continuing(pending: set<Pair>, stored: map<Pair, map<(string, string), Binding>>)
      ensures Valid() && this.pending == pending && this.stored == stored
    {
      this.pending, this.stored, clicks, verified, waiting := pending, stored, multiset(pending), multiset{}, map[];
    }

    function StoredFor(p: Pair): map<(string, string), Binding>
      reads `stored
    {
      Lookup(stored, p)
    }

    /** `_remember_expected_readbacks`: later bindings replace earlier ones of a control. */
    method Remember(p: Pair, bindings: seq<Binding>)
      modifies this`stored
      ensures forall q :: q != p ==> Lookup(stored, q) == Lookup(old(stored), q)
      ensures forall k :: k in old(StoredFor(p)) ==> k in StoredFor(p)
      ensures forall k :: k in StoredFor(p) ==>
        StoredFor(p)[k] in bindings || (k in old(StoredFor(p)) && StoredFor(p)[k] == old(StoredFor(p))[k])
      ensures forall b :: b in bindings ==> (b.canonical, b.selector) in StoredFor(p)
    {
      if bindings == [] { return; }
      var known := StoredFor(p);
      for i := 0 to |bindings|
        invariant known == Recalled(StoredFor(p), bindings[..i])
      {
        assert bindings[..i + 1][..i] == bindings[..i];
        known := known[(bindings[i].canonical, bindings[i].selector) := bindings[i]];
      }
      assert bindings[..|bindings|] == bindings;
      RecalledFacts(StoredFor(p), bindings);
      stored := stored[p := known];
    }

    /** `_complete_stage`: Next is clicked only when every required control is bound. */
    method CompleteStage(ctx: WorkdayContext, s: StageScript) returns (stop: Option<Outcome>, nextClicked: bool)
      modifies this`stored
      ensures nextClicked ==> StageBound(s)
      ensures stop.None? <==> nextClicked
      ensures stop.Some? ==> stop.value.status in {NeedsUser, NeedsUserSensitiveAnswer, FailedRetryable}
      ensures nextClicked ==> forall i :: 0 <= i < |s.fields| && ReadBack(s.fields, s.writes, i) ==>
        (s.fields[i].canonical, s.fields[i].selector) in StoredFor(ctx.Pair())
    {
      var fill := FillWorkdayFields(s.fields, s.writes);
      if fill.mismatches != {} { return Some(Reply(ctx, NeedsUser, ValidationFailed)), false; }
      if fill.sensitive != {} { return Some(Reply(ctx, NeedsUserSensitiveAnswer, SensitiveAnswerRequired)), false; }
      if fill.unresolved != {} { return Some(Reply(ctx, NeedsUser, UnknownRequiredQuestion)), false; }
      if exists b :: b in fill.expected && !s.recheck(b) {
        return Some(Reply(ctx, NeedsUser, ValidationFailed)), false;
      }
      Remember(ctx.Pair(), fill.expected);
      forall i | 0 <= i < |s.fields| && ReadBack(s.fields, s.writes, i)
        ensures BindingOf(s.fields[i]) in fill.expected
      {
      }
      if !s.next { return Some(Reply(ctx, FailedRetryable, ValidationFailed)), false; }
      return None, true;
    }

    /** `submit`, as the shared protocol calls it. */
    method Submit(ctx: WorkdayContext, doc: Document, fingerprint: string, answers: bool, works: bool) returns (clicked: bool)
      requires Valid() && doc.Valid()
      modifies this`pending, this`clicks, doc
      ensures Valid() && doc.Valid()
      ensures View() == if clicked then Next(old(View()), SubmitClick(ctx.Pair())) else old(View())
      ensures clicked ==> doc.clicked[ctx.jobId + ":" + fingerprint] == 1
    {
      clicked := doc.ClickSubmitOnce(ctx.jobId + ":" + fingerprint, answers, works);
      if clicked {
        pending := pending + {ctx.Pair()};
        clicks := clicks + multiset{ctx.Pair()};
        StepsKeepWithin(old(View()), SubmitClick(ctx.Pair()));
        assert View() == Next(old(View()), SubmitClick(ctx.Pair()));
      }
    }

    /** `verify_submission`: the pair is looked up, the page is awaited while other calls take
        the steps `meanwhile`, and a confirmation is reported without looking again. */
    method VerifySubmission(ctx: WorkdayContext, task: nat, meanwhile: seq<WorkdaySubmit.Step>, confirmed: bool)
      returns (found: bool, ghost steps: seq<WorkdaySubmit.Step>)
      requires task !in waiting && Foreign(task, meanwhile)
      modifies this`pending, this`clicks, this`verified, this`waiting
      ensures found <==> confirmed && ctx.Pair() in old(pending)
      ensures steps == CheckSteps(task, ctx.Pair(), ctx.Pair() in old(pending), meanwhile, confirmed)
      ensures View() == Fold(old(View()), steps)
      ensures old(Valid()) && meanwhile == [] ==> Valid()
    {
      var p := ctx.Pair();
      steps := [];
      if p !in pending { return false, steps; }
      steps := CheckSteps(task, p, true, meanwhile, confirmed);
      CheckFold(old(View()), task, p, meanwhile, confirmed);
      Interleave(task, p, meanwhile);
      Report(task, p, confirmed);
      if meanwhile == [] && old(Valid()) {
        CheckKeepsWithin(old(View()), task, p, confirmed);
      }
      return confirmed, steps;
    }

    /** The end of a waiting call; the pair is not looked up again. */
    method Report(task: nat, p: Pair, confirmed: bool)
      requires Waits(View(), task, p)
      modifies this`pending, this`verified, this`waiting
      ensures View() == Next(old(View()), if confirmed then Confirm(task) else Lapse(task))
    {
      if confirmed {
        pending := pending - {p};
        verified := verified + multiset{p};
      }
      waiting := waiting - {task};
    }

    /** What the other calls do while this one awaits the page. */
    method Interleave(task: nat, p: Pair, meanwhile: seq<WorkdaySubmit.Step>)
      requires p in pending && task !in waiting && Foreign(task, meanwhile)
      modifies this`pending, this`clicks, this`verified, this`waiting
      ensures View() == Fold(Next(old(View()), CheckBegin(task, p)), meanwhile)
      ensures Waits(View(), task, p)
    {
      var after := Fold(Next(View(), CheckBegin(task, p)), meanwhile);
      ForeignKeepsWait(Next(View(), CheckBegin(task, p)), task, p, meanwhile);
      pending, clicks, verified, waiting := after.pending, after.clicks, after.verified, after.waiting;
    }

    /** A confirmation page in `run` counts only for a pending pair, tested and taken at once. */
    method CheckConfirmation(ctx: WorkdayContext) returns (found: bool)
      requires Valid()
      modifies this`pending, this`verified
      ensures Valid()
      ensures found <==> ctx.Pair() in old(pending)
      ensures View() == Next(old(View()), CheckConfirm(ctx.Pair()))
    {
      if ctx.Pair() !in pending { return false; }
      pending := pending - {ctx.Pair()};
      verified := verified + multiset{ctx.Pair()};
      StepsKeepWithin(old(View()), CheckConfirm(ctx.Pair()));
      assert View() == Next(old(View()), CheckConfirm(ctx.Pair()));
      return true;
    }

    /** The checks of `_review_or_submit` before it may go on: an early outcome, or go. */
    method CheckReview(ctx: WorkdayContext, s: ReviewScript) returns (stop: Option<Outcome>)
      modifies this`stored
      ensures stop.None? ==> ReviewChecked(ctx, s)
      ensures stop.Some? ==> stop.value.status == NeedsUser
    {
      if s.unresolved { return Some(Reply(ctx, NeedsUser, UnknownRequiredQuestion)); }
      Remember(ctx.Pair(), s.current);
      var bound := StoredFor(ctx.Pair());
      var missing := bound == map[] && ctx.hasVerifiedValues;
      if missing && ctx.requestSubmit && !Resumed(ctx, s) {
        return Some(Reply(ctx, NeedsUser, ValidationFailed));
      }
      if exists k :: k in bound.Keys && !s.matches(bound[k]) {
        return Some(Reply(ctx, NeedsUser, ValidationFailed));
      }
      return None;
    }

    /** The attestation of an earlier review of the same surface, brought by the caller. */
    predicate Resumed(ctx: WorkdayContext, s: ReviewScript) {
      s.surface != "" && s.attestation != "" && ctx.persistedAttestation != "" && s.attestation == ctx.persistedAttestation
    }

    /** Every value ever bound for this run and job reads back exactly on this very page; and
        a submission with nothing bound needs the earlier review's attestation. */
    predicate ReviewChecked(ctx: WorkdayContext, s: ReviewScript)
      reads `stored
    {
      && (forall k :: k in StoredFor(ctx.Pair()).Keys ==> s.matches(StoredFor(ctx.Pair())[k]))
      && (forall b :: b in s.current ==> (b.canonical, b.selector) in StoredFor(ctx.Pair()))
      && (StoredFor(ctx.Pair()) == map[] && ctx.hasVerifiedValues && ctx.requestSubmit ==> Resumed(ctx, s))
    }

    /** `_review_or_submit`: a click only after the review was checked and Gate B said yes,
        then polling for its confirmation.  `None` means that the validator raised. */
    method ReviewOrSubmit(ctx: WorkdayContext, doc: Document, s: ReviewScript, validator: GateBValidator?)
      returns (o: Option<Outcome>, ghost steps: seq<WorkdaySubmit.Step>, ghost granted: bool)
      requires Valid() && doc.Valid() && (validator != null ==> validator.Valid())
      modifies this, doc, validator, if validator == null then {} else {validator.ledger}
      ensures Valid() && doc.Valid()
      ensures View() == Fold(old(View()), steps)
      ensures ReviewSteps(ctx.Pair(), steps)
      ensures ValidatorEffect(ctx.runId, ctx.jobId, validator, granted, s.fingerprint, s.around.Alone(), true)
      ensures steps != [] ==> granted
      ensures granted || (o.Some? && o.value.status == ReviewReady) ==> ReviewChecked(ctx, s)
      ensures o.Some? ==> (o.value.status == SubmittedVerified <==> steps == [ReviewClick(0, ctx.Pair()), Confirm(0)])
      ensures o.Some? && o.value.status == ReviewReady ==> !ctx.requestSubmit && ReviewHash(o.value) == s.fingerprint
    {
      steps, granted := [], false;
      o := Examine(ctx, s);
      if o.None? {
        o, steps, granted := PermitAndClick(ctx, doc, s, validator);
      }
    }

    /** The part of it that touches neither the page's submit control nor Gate B: an early
        outcome, or the reply to a review that is not to be submitted. */
    method Examine(ctx: WorkdayContext, s: ReviewScript) returns (o: Option<Outcome>)
      modifies this`stored
      ensures o.None? ==> ReviewChecked(ctx, s)
      ensures o.Some? ==> o.value.status in {NeedsUser, ReviewReady}
      ensures o.Some? && o.value.status == ReviewReady ==>
        ReviewChecked(ctx, s) && !ctx.requestSubmit && ReviewHash(o.value) == s.fingerprint
    {
      o := CheckReview(ctx, s);
      if o.None? && !ctx.requestSubmit {
        var attested := StoredFor(ctx.Pair()) != map[] || Resumed(ctx, s);
        o := Some(ReviewedReply(ctx, s.fingerprint, if attested then s.attestation else ""));
      }
    }

    method PermitAndClick(ctx: WorkdayContext, doc: Document, s: ReviewScript, validator: GateBValidator?)
      returns (o: Option<Outcome>, ghost steps: seq<WorkdaySubmit.Step>, ghost granted: bool)
      requires Valid() && doc.Valid() && (validator != null ==> validator.Valid())
      modifies this`pending, this`clicks, this`verified, doc, validator, if validator == null then {} else {validator.ledger}
      ensures Valid() && doc.Valid()
      ensures View() == Fold(old(View()), steps)
      ensures ReviewSteps(ctx.Pair(), steps)
      ensures ValidatorEffect(ctx.runId, ctx.jobId, validator, granted, s.fingerprint, s.around.Alone(), true)
      ensures steps != [] ==> granted
      ensures o.Some? ==> (o.value.status == SubmittedVerified <==> steps == [ReviewClick(0, ctx.Pair()), Confirm(0)])
      ensures o.Some? ==> o.value.status != ReviewReady
      ensures granted ==> o.Some?
    {
      steps := [];
      var answer := AskValidator(ctx.runId, ctx.jobId, s.fingerprint, s.around, validator, ctx.permit);
      granted := answer == Granted;
      o := if answer == Refused then Some(Reply(ctx, AwaitingGateB, GateBRequired)) else None;
      if answer == Granted {
        label Asked:
        o, steps := ClickAndPoll(ctx, doc, s);
        assert unchanged@Asked(validator) && unchanged@Asked(validator.ledger);
      }
    }

    /** The click and the polling loop; nothing else of this adapter runs in between. */
    method ClickAndPoll(ctx: WorkdayContext, doc: Document, s: ReviewScript)
      returns (o: Option<Outcome>, ghost steps: seq<WorkdaySubmit.Step>)
      requires Valid() && doc.Valid()
      modifies this`pending, this`clicks, this`verified, doc
      ensures Valid() && doc.Valid() && o.Some?
      ensures View() == Fold(old(View()), steps)
      ensures ReviewSteps(ctx.Pair(), steps)
      ensures o.value.status == SubmittedVerified <==> steps == [ReviewClick(0, ctx.Pair()), Confirm(0)]
      ensures o.value.status in {SubmittedVerified, SubmitUnknown, FailedRetryable}
    {
      steps := [];
      var p := ctx.Pair();
      var ok := doc.ClickSubmitOnce(ctx.jobId + ":" + s.fingerprint, s.lockAnswers, s.clickWorks);
      if !ok { return Some(Reply(ctx, FailedRetryable, ValidationFailed)), steps; }
      pending := pending + {p};
      clicks := clicks + multiset{p};
      ReviewFold(old(View()), p);
      StepsKeepWithin(old(View()), ReviewClick(0, p));
      for i := 0 to 15
        invariant pending == old(pending) + {p} && clicks == old(clicks) + multiset{p} && verified == old(verified)
        invariant doc.Valid()
      {
        if i < |s.polls| && s.polls[i] {
          pending := pending - {p};
          verified := verified + multiset{p};
          steps := [ReviewClick(0, p), Confirm(0)];
          ConfirmedKeepsWithin(Fold(old(View()), steps[..1]), p);
          return Some(Reply(ctx, SubmittedVerified, SubmissionConfirmed).(evidence := [Evidence(ConfirmationText, s.surface)])), steps;
        }
      }
      steps := [ReviewClick(0, p), Lapse(0)];
      forall q ensures WithinClicks(View(), q) {
        assert WithinClicks(Next(old(View()), ReviewClick(0, p)), q);
      }
      return Some(Reply(ctx, SubmitUnknown, ConfirmationMissing).(details := NO_DETAILS.(doNotRetry := true))), steps;
    }

    /** `run`: the page-driven state machine.  Every action falls on a page bound to the
        requested posting and repeated less than twice.  `None` means that an exception left
        it.  A click follows a yes of Gate B for the fingerprint of that review. */
    method Run(ctx: WorkdayContext, doc: Document, s: RunScript, validator: GateBValidator?)
      returns (o: Option<Outcome>, ghost iterations: nat, ghost acted: set<nat>, ghost steps: seq<WorkdaySubmit.Step>,
               ghost grant: Option<nat>)
      requires Valid() && doc.Valid() && (validator != null ==> validator.Valid())
      modifies this, doc, validator, if validator == null then {} else {validator.ledger}
      ensures Valid() && doc.Valid()
      ensures iterations <= Max(1, ctx.maxSteps)
      ensures iterations > 0 ==> ctx.requested.Some? && Contained(TrackOf(ctx.requested.value, s.see), iterations, acted)
      ensures iterations == 0 ==> acted == {} && steps == []
      ensures iterations > 0 && steps == [CheckConfirm(ctx.Pair())] ==>
        BoundBy(TrackOf(ctx.requested.value, s.see), iterations - 1)
      ensures Counted(old(View()), View(), ctx.Pair(), steps, o)
      ensures ValidatorEffect(ctx.runId, ctx.jobId, validator, grant.Some?, FingerprintAt(s, grant), s.Alone(), true)
      ensures HasClick(steps) ==> grant.Some?
      ensures grant.Some? ==> iterations > 0 && grant.value in acted && s.see(grant.value).stage == ReviewPage
    {
      if ctx.requested.None? { return Some(Reply(ctx, FailedTerminal, ValidationFailed)), 0, {}, [], None; }
      if !s.loads { return Some(Reply(ctx, FailedRetryable, RetryableBrowserError)), 0, {}, [], None; }
      if ctx.navigate {
        doc.Load();
      }
      TracksAreFaithful(ctx.requested.value, s.see);
      o, iterations, acted, steps, grant := Drive(ctx, doc, s, TrackOf(ctx.requested.value, s.see), validator);
    }

    /** The loop of `run`, and the branch that ends it. */
    method Drive(ctx: WorkdayContext, doc: Document, s: RunScript, t: Track, validator: GateBValidator?)
      returns (o: Option<Outcome>, ghost iterations: nat, ghost acted: set<nat>, ghost steps: seq<WorkdaySubmit.Step>,
               ghost grant: Option<nat>)
      requires Valid() && doc.Valid() && (validator != null ==> validator.Valid()) && Faithful(t)
      modifies this, doc, validator, if validator == null then {} else {validator.ledger}
      ensures Valid() && doc.Valid()
      ensures iterations <= Max(1, ctx.maxSteps) && Contained(t, iterations, acted)
      ensures iterations == 0 ==> steps == []
      ensures steps == [CheckConfirm(ctx.Pair())] ==> iterations > 0 && BoundBy(t, iterations - 1)
      ensures Counted(old(View()), View(), ctx.Pair(), steps, o)
      ensures ValidatorEffect(ctx.runId, ctx.jobId, validator, grant.Some?, FingerprintAt(s, grant), s.Alone(), true)
      ensures HasClick(steps) ==> grant.Some?
      ensures grant.Some? ==> grant.value in acted && t.stage(grant.value) == ReviewPage
    {
      grant := None;
      var end;
      end, iterations, acted := Advance(ctx, doc, s, t);
      assert validator != null ==> unchanged(validator) && unchanged(validator.ledger);
      match end
      case AtReview(i) =>
        ghost var granted;
        o, steps, granted := ReviewSeen(ctx, doc, s.review(i), validator);
        grant := if granted then Some(i) else None;
      case AtConfirmation(i) =>
        o, steps := ConfirmationSeen(ctx, s.see(i).urlText);
      case Finished(result) =>
        o, steps := Some(result), [];
        NothingCounted(View(), ctx.Pair(), o);
      case Broken =>
        o, steps := None, [];
        NothingCounted(View(), ctx.Pair(), o);
    }

    /** The iterations up to the one that ends the run. */
    method Advance(ctx: WorkdayContext, doc: Document, s: RunScript, t: Track)
      returns (end: LoopEnd, ghost iterations: nat, ghost acted: set<nat>)
      requires doc.Valid() && Faithful(t)
      modifies this`stored, doc
      ensures doc.Valid()
      ensures iterations <= Max(1, ctx.maxSteps) && Contained(t, iterations, acted)
      ensures iterations == 0 ==> end.Broken?
      ensures end.Finished? ==> end.outcome.status != SubmittedVerified
      ensures end.AtReview? ==> end.i in acted && t.stage(end.i) == ReviewPage
      ensures end.AtConfirmation? ==> end.i == iterations - 1 && BoundBy(t, end.i) && t.stage(end.i) == ConfirmationPage
      ensures iterations > 0 && !end.Broken? && t.verdict(iterations - 1) == Mismatch ==>
        end.Finished? && end.outcome.status == FailedTerminal
    {
      iterations, acted := 0, {};
      var bound, previous, repeated := false, "", 0;
      for i := 0 to Max(1, ctx.maxSteps)
        invariant iterations == i && doc.Valid()
        invariant Progress(t, i, acted, bound)
        invariant i == 0 ==> previous == "" && repeated == 0
        invariant i > 0 ==> previous == t.signature(i - 1) && repeated == Repeats(t, i - 1)
      {
        if s.breaks(i) == BreaksAtLook { return Broken, iterations, acted; }
        iterations := i + 1;
        var move;
        move, bound, repeated, acted := Look(t, i, bound, previous, repeated, acted);
        previous := t.signature(i);
        if Acts(move) && s.breaks(i) == BreaksBefore { return Broken, iterations, acted; }
        if move == DoReview { return AtReview(i), iterations, acted; }
        if move == CheckPage { return AtConfirmation(i), iterations, acted; }
        var stop := Perform(ctx, doc, s, i, t.stage(i), move);
        if Acts(move) && s.breaks(i) == BreaksAfter { return Broken, iterations, acted; }
        if stop.Some? { return Finished(stop.value), iterations, acted; }
      }
      end := Finished(Reply(ctx, FailedRetryable, RetryableBrowserError));
    }

    /** One observation and the decision about it. */
    method Look(t: Track, i: nat, wasBound: bool, previous: string, count: nat, ghost before: set<nat>)
      returns (move: Move, bound: bool, repeated: nat, ghost acted: set<nat>)
      requires Faithful(t) && Progress(t, i, before, wasBound)
      requires if i == 0 then previous == "" && count == 0 else previous == t.signature(i - 1) && count == Repeats(t, i - 1)
      ensures repeated == Repeats(t, i) && bound == (wasBound || t.verdict(i) == Match)
      ensures move == Decide(t.stage(i), t.verdict(i), bound, repeated)
      ensures Contained(t, i + 1, acted) && (GoesOn(move) ==> Progress(t, i + 1, acted, bound))
      ensures move == CheckPage ==> BoundBy(t, i) && t.stage(i) == ConfirmationPage
      ensures move == DoReview ==> i in acted && t.stage(i) == ReviewPage
      ensures t.verdict(i) == Mismatch ==> move == Refuse
    {
      bound := wasBound || t.verdict(i) == Match;
      repeated := if t.signature(i) == previous then count + 1 else 0;
      move := Decide(t.stage(i), t.verdict(i), bound, repeated);
      acted := before + if Acts(move) then {i} else {};
      ProgressStep(t, i, before, acted, wasBound, move);
    }

    /** Carry out a decision that leaves the pending pairs and Gate B alone; the run goes on
        only after a form stage, a step or a wait. */
    method Perform(ctx: WorkdayContext, doc: Document, s: RunScript, i: nat, stage: Stage, move: Move)
      returns (stop: Option<Outcome>)
      requires doc.Valid() && !move.DoReview? && !move.CheckPage?
      modifies this`stored, doc
      ensures doc.Valid()
      ensures stop.None? ==> GoesOn(move)
      ensures stop.Some? ==> stop.value.status != SubmittedVerified
      ensures move == Refuse ==> stop.Some? && stop.value.status == FailedTerminal
    {
      if move == DoForm {
        var advanced;
        stop, advanced := CompleteStage(ctx, s.form(i));
      } else {
        stop := PlainResult(ctx, stage, move, s.halts(i));
      }
      if stop.None? && s.reloads(i) {
        doc.Load();
      }
    }

    /** The Review branch of `run`. */
    method ReviewSeen(ctx: WorkdayContext, doc: Document, s: ReviewScript, validator: GateBValidator?)
      returns (o: Option<Outcome>, ghost steps: seq<WorkdaySubmit.Step>, ghost granted: bool)
      requires Valid() && doc.Valid() && (validator != null ==> validator.Valid())
      modifies this, doc, validator, if validator == null then {} else {validator.ledger}
      ensures Valid() && doc.Valid()
      ensures Counted(old(View()), View(), ctx.Pair(), steps, o)
      ensures ValidatorEffect(ctx.runId, ctx.jobId, validator, granted, s.fingerprint, s.around.Alone(), true)
      ensures steps != [CheckConfirm(ctx.Pair())] && (HasClick(steps) ==> granted)
    {
      o, steps, granted := ReviewOrSubmit(ctx, doc, s, validator);
    }

    /** The confirmation branch of `run`. */
    method ConfirmationSeen(ctx: WorkdayContext, url: string) returns (o: Option<Outcome>, ghost steps: seq<WorkdaySubmit.Step>)
      requires Valid()
      modifies this`pending, this`verified
      ensures Valid() && steps == [CheckConfirm(ctx.Pair())]
      ensures Counted(old(View()), View(), ctx.Pair(), steps, o)
    {
      var found := CheckConfirmation(ctx);
      steps := [CheckConfirm(ctx.Pair())];
      FoldOne(old(View()), CheckConfirm(ctx.Pair()));
      o := Some(if found then Confirmed(ctx, url) else Reply(ctx, SubmitUnknown, ConfirmationMissing));
    }
  }

  /** The decisions that need no further look at the page; `None` goes on. */
  function PlainResult(ctx: WorkdayContext, stage: Stage, move: Move, halts: Option<HandOver>): (o: Option<Outcome>)
    ensures o.Some? ==> o.value.status != SubmittedVerified
    ensures o.None? ==> move.Wait? || move.DoStep? || move.DoReview? || move.DoForm? || move.CheckPage?
  {
    match move
    case Refuse => Some(Reply(ctx, FailedTerminal, ValidationFailed))
    case GiveUp => Some(Stuck(ctx, stage))
    case Wall => Some(Walled(ctx, stage))
    case Unstable => Some(Reply(ctx, FailedRetryable, RetryableBrowserError))
    case DoStep => if halts.Some? then Some(Reply(ctx, halts.value, LoginRequired)) else None
    case _ => None
  }

  /** How the loop of a run ends. */
  datatype LoopEnd = AtReview(i: nat) | AtConfirmation(i: nat) | Finished(outcome: Outcome) | Broken

  datatype Move = Refuse | GiveUp | CheckPage | Wall | DoReview | DoForm | DoStep | Wait | Unstable

  /** The branches of one iteration, in order; `bound` includes the current page. */
  function Decide(stage: Stage, verdict: Verdict, bound: bool, repeated: nat): Move {
    if verdict == Mismatch || (!bound && stage != Loading) then Refuse
    else if repeated >= 2 && ActionStage(stage) then GiveUp
    else if stage == ConfirmationPage then CheckPage
    else if stage.CaptchaWall? || stage.Mfa? || stage.Locked? then Wall
    else if FormStage(stage) then DoForm
    else if ActionStage(stage) then DoStep
    else if stage == ReviewPage then DoReview
    else if repeated >= 4 then Unstable
    else Wait
  }

  predicate Acts(m: Move) { m.DoForm? || m.DoStep? || m.DoReview? }

  predicate GoesOn(m: Move) { m.DoForm? || m.DoStep? || m.Wait? }

  /** The effect of one call on the pending pairs and counts, step by step; a verified result
      is a click of this call confirmed while polling, or a pair that was pending before. */
  ghost predicate Counted(before: State, after: State, p: Pair, steps: seq<WorkdaySubmit.Step>, o: Option<Outcome>) {
    && after == Fold(before, steps)
    && (ReviewSteps(p, steps) || steps == [CheckConfirm(p)])
    && (o.Some? && o.value.status == SubmittedVerified ==>
          steps == [ReviewClick(0, p), Confirm(0)] || (steps == [CheckConfirm(p)] && p in before.pending))
  }

  lemma NothingCounted(s: State, p: Pair, o: Option<Outcome>)
    requires o.Some? ==> o.value.status != SubmittedVerified
    ensures Counted(s, s, p, [], o)
  {
  }

  /** The steps hold a click of this call. */
  predicate HasClick(steps: seq<WorkdaySubmit.Step>) {
    steps != [] && steps[0].ReviewClick?
  }

  /** The fingerprint of the review that Gate B said yes to. */
  function FingerprintAt(s: RunScript, grant: Option<nat>): string {
    if grant.Some? then s.review(grant.value).fingerprint else ""
  }

  /** Where a run acted, and how long it insisted on one page. */
  ghost predicate Contained(t: Track, iterations: nat, acted: set<nat>) {
    && (forall i :: i in acted ==> i < iterations && BoundBy(t, i) && Repeats(t, i) < 2)
    && (forall i :: 0 <= i < iterations - 1 ==> Repeats(t, i) < 4 && (ActionStage(t.stage(i)) ==> Repeats(t, i) < 2))
  }

  /** What the first `i` iterations establish when none of them ended the run. */
  ghost predicate Progress(t: Track, i: nat, acted: set<nat>, bound: bool) {
    && (forall j: nat :: j < i ==> t.verdict(j) != Mismatch)
    && (bound ==> exists j: nat :: j < i && t.verdict(j) == Match)
    && (forall j :: j in acted ==> j < i && BoundBy(t, j) && Repeats(t, j) < 2)
    && (forall j: nat :: j < i ==> Repeats(t, j) < 4 && (ActionStage(t.stage(j)) ==> Repeats(t, j) < 2))
    && (forall j: nat :: j < i ==> t.stage(j) != ReviewPage)
  }

  /** Which page a decision to act, or to go on, can be taken on. */
  lemma DecideFacts(stage: Stage, verdict: Verdict, bound: bool, repeated: nat)
    ensures var move := Decide(stage, verdict, bound, repeated);
            && (Acts(move) || move == CheckPage ==> verdict != Mismatch && bound)
            && (Acts(move) ==> repeated < 2 || stage == ReviewPage)
            && (move == CheckPage ==> stage == ConfirmationPage)
            && (GoesOn(move) ==> verdict != Mismatch && repeated < 4 && stage != ReviewPage)
            && (GoesOn(move) && ActionStage(stage) ==> repeated < 2)
  {
  }

  /** One iteration: an action only on a bound page and below two repeats, and the facts
      about the iterations so far extend to one that goes on. */
  lemma ProgressStep(t: Track, i: nat, before: set<nat>, acted: set<nat>, bound: bool, move: Move)
    requires Faithful(t) && Progress(t, i, before, bound)
    requires move == Decide(t.stage(i), t.verdict(i), bound || t.verdict(i) == Match, Repeats(t, i))
    requires acted == before + if Acts(move) then {i} else {}
    ensures Contained(t, i + 1, acted)
    ensures move == CheckPage ==> BoundBy(t, i) && t.stage(i) == ConfirmationPage
    ensures GoesOn(move) ==> Progress(t, i + 1, acted, bound || t.verdict(i) == Match)
  {
    var verdict, repeated := t.verdict(i), Repeats(t, i);
    DecideFacts(t.stage(i), verdict, bound || verdict == Match, repeated);
    assert t.stage(i) == ReviewPage ==> repeated == 0;
    if Acts(move) || move == CheckPage {
      ActsBound(t, i, bound);
    }
  }

  lemma ActsBound(t: Track, i: nat, bound: bool)
    requires forall j: nat :: j < i ==> t.verdict(j) != Mismatch
    requires bound ==> exists j: nat :: j < i && t.verdict(j) == Match
    requires t.verdict(i) != Mismatch && (bound || t.verdict(i) == Match)
    ensures BoundBy(t, i)
  {
  }

  function Max(a: int, b: int): nat
    requires a >= 0
  {
    if a < b then b else a
  }

  function Stuck(ctx: WorkdayContext, stage: Stage): (o: Outcome)
    ensures o.status != SubmittedVerified
  {
    if stage == VerifyEmail then Reply(ctx, NeedsUserEmailVerification, EmailVerification)
    else if stage in {Login, Register} then Reply(ctx, NeedsUserLogin, LoginRequired)
    else Reply(ctx, FailedRetryable, ValidationFailed)
  }

  function Walled(ctx: WorkdayContext, stage: Stage): (o: Outcome)
    ensures o.status != SubmittedVerified
  {
    if stage == CaptchaWall then Reply(ctx, NeedsUserCaptcha, Captcha)
    else if stage == Mfa then Reply(ctx, NeedsUser2fa, TwoFactorAuth)
    else Reply(ctx, NeedsUserAccountLocked, AccountLocked)
  }

  function Confirmed(ctx: WorkdayContext, url: string): (o: Outcome)
    ensures o.status == SubmittedVerified && EligibleEvidence(o.evidence).Some?
  {
    Reply(ctx, SubmittedVerified, SubmissionConfirmed).(evidence := [Evidence(ConfirmationText, url)])
  }

  /** The Review outcome; its fingerprint is what the engine will find in it. */
  function ReviewedReply(ctx: WorkdayContext, fingerprint: string, attestation: string): (o: Outcome)
    ensures o.status == ReviewReady && ReviewHash(o) == fingerprint
  {
    var o := Reply(ctx, ReviewReady, ReviewComplete).(
      evidence := [Evidence(FormSnapshot, fingerprint)],
      details := NO_DETAILS.(reviewFingerprint := fingerprint, attestation := attestation));
    assert o.evidence[1..] == [] && SnapshotHash(o.evidence) == fingerprint;
    o
  }

  /** The steps a review call can take on the pending set. */
  predicate ReviewSteps(p: Pair, steps: seq<WorkdaySubmit.Step>) {
    steps == [] || steps == [ReviewClick(0, p), Confirm(0)] || steps == [ReviewClick(0, p), Lapse(0)]
  }

  lemma ReviewFold(s: State, p: Pair)
    requires s.waiting == map[]
    ensures var clicked := Next(s, ReviewClick(0, p));
            && Fold(s, [ReviewClick(0, p)]) == clicked
            && Fold(s, [ReviewClick(0, p), Confirm(0)])
               == State.State(clicked.pending - {p}, clicked.clicks, clicked.verified + multiset{p}, map[])
            && Fold(s, [ReviewClick(0, p), Lapse(0)]) == clicked.(waiting := map[])
  {
  }

  lemma ConfirmedKeepsWithin(s: State, p: Pair)
    requires p in s.pending && forall q :: WithinClicks(s, q)
    ensures forall q :: WithinClicks(State.State(s.pending - {p}, s.clicks, s.verified + multiset{p}, map[]), q)
  {
    forall q ensures WithinClicks(State.State(s.pending - {p}, s.clicks, s.verified + multiset{p}, map[]), q) {
      assert WithinClicks(s, q);
    }
  }

  /** The task takes no step of its own. */
  predicate Foreign(task: nat, steps: seq<WorkdaySubmit.Step>) {
    forall k :: 0 <= k < |steps| && (steps[k].ReviewClick? || steps[k].CheckBegin? || steps[k].Confirm? || steps[k].Lapse?) ==>
      steps[k].task != task
  }

  /** The steps of one `verify_submission` call and of the calls it overlaps with. */
  function CheckSteps(task: nat, p: Pair, begins: bool, meanwhile: seq<WorkdaySubmit.Step>, confirmed: bool): seq<WorkdaySubmit.Step> {
    if !begins then []
    else [CheckBegin(task, p)] + (meanwhile + [if confirmed then Confirm(task) else Lapse(task)])
  }

  /** Without other calls in between, the check keeps the bound. */
  lemma CheckKeepsWithin(s: State, task: nat, p: Pair, confirmed: bool)
    requires s.waiting == map[] && p in s.pending && forall q :: WithinClicks(s, q)
    ensures var z := Next(Next(s, CheckBegin(task, p)), if confirmed then Confirm(task) else Lapse(task));
            z.waiting == map[] && forall q :: WithinClicks(z, q)
  {
    if confirmed {
      ConfirmedKeepsWithin(s, p);
    } else {
      forall q ensures WithinClicks(Next(Next(s, CheckBegin(task, p)), Lapse(task)), q) {
        assert WithinClicks(s, q);
      }
    }
  }

  /** A waiting call keeps waiting while others take their steps. */
  lemma {:induction false} ForeignKeepsWait(s: State, task: nat, p: Pair, steps: seq<WorkdaySubmit.Step>)
    requires Waits(s, task, p) && Foreign(task, steps)
    ensures Waits(Fold(s, steps), task, p)
  {
    if steps != [] {
      ForeignKeepsWait(s, task, p, steps[..|steps| - 1]);
    }
  }

  lemma CheckFold(s: State, task: nat, p: Pair, meanwhile: seq<WorkdaySubmit.Step>, confirmed: bool)
    ensures var last := if confirmed then Confirm(task) else Lapse(task);
            Fold(s, CheckSteps(task, p, true, meanwhile, confirmed))
            == Next(Fold(Next(s, CheckBegin(task, p)), meanwhile), last)
  {
    var last := if confirmed then Confirm(task) else Lapse(task);
    FoldFirst(s, CheckBegin(task, p), meanwhile + [last]);
    assert (meanwhile + [last])[..|meanwhile|] == meanwhile;
  }
}
