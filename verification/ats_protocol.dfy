/** The deterministic ATS adapter (adapters/protocol.py): inspect, fill, validate, review,
    submit, verify.  Playwright is replaced by a script of readings, so that every page
    behaviour is some script; text normalisation and SHA-256 are function parameters. */
module AtsProtocol {
  import opened Common
  import opened Outcomes
  import opened Ledger
  import opened GateB

  datatype Kind = File | Checkbox | Radio | Select | Entry

  datatype Field = Field(key: string, title: string, kind: Kind, required: bool, sensitive: bool)

  /** A confirmed value, as `resolve_confirmed_value` returns it. */
  datatype Expected = NoValue | Flag(on: bool) | Text(text: string) {
    predicate Missing() { this == NoValue || this == Text("") }
  }

  /** The verified file of a role, when the review readings it back. */
  datatype FileLookup = NoFile | Unreadable | Bytes(bytes: string)

  datatype Normal = Normal(
    fold: string -> string, digits: string -> string, trimSlash: string -> string,
    affirmative: string -> bool)

  /** The upload plan: roles by index of the control, or a failure. */
  datatype Uploads = LegacyResume(present: bool) | PlanFailed | Planned(items: map<nat, string>)

  datatype Context = Context(
    runId: string, jobId: string, adapter: string, requestSubmit: bool, navigate: bool,
    uploads: Uploads, confirmed: (string, string) -> Expected, file: string -> FileLookup,
    normal: Normal)

  datatype FillRead = FillGone | FillFails | FillDone(ok: bool)

  datatype PopulatedRead = PopulatedGone | PopulatedFails | Populated(yes: bool)

  datatype FileRead = Corrupt | Content(bytes: string, mime: string)

  datatype ReadState = ReadState(checked: bool, value: string, caption: string, files: seq<FileRead>)

  datatype StateRead = StateGone | StateFails | State(state: ReadState)

  datatype ConfirmationRead = NotShown | ReadFails | Shown(text: string, positive: bool, applicationId: string)

  /** What the validator meets when this page calls it. */
  datatype Surroundings = Surroundings(
    leases: map<string, LeaseRow>, now: int,
    beforeConsume: seq<Event>, beforeCreate: seq<Event>, beforeStart: seq<Event>)
  {
    predicate Alone() { beforeConsume == [] && beforeCreate == [] && beforeStart == [] }
  }

  /** Where the process dies: after so many stages were passed.  When that is inside a
      validator call, the call's first writes, and what others wrote between them, stay. */
  datatype Death = Death(passed: nat, lastWrites: seq<Event>)

  /** Everything the page answers during one run, in the order it is asked. */
  datatype Script = Script(
    loads: bool, supported: Option<bool>, inspected: bool,
    form: seq<Field>, signature: string,
    fills: seq<FillRead>, populated: seq<PopulatedRead>, states: seq<StateRead>,
    submitShown: bool, reviewMarker: bool,
    before: seq<ConfirmationRead>, beforeUrl: string,
    around: Surroundings,
    submitStillShown: bool, lockAnswers: bool, clickWorks: bool, settles: bool,
    after: seq<ConfirmationRead>, afterUrl: string, death: Option<Death>)
  {
    /** The process dies once this many stages are passed. */
    predicate DiesAt(passed: nat) { death.Some? && death.value.passed == passed }

    /** Nobody else writes to the ledger during the run. */
    predicate Alone() { around.Alone() && (death.Some? ==> ValidatorWrites(death.value.lastWrites)) }
  }

  function At<T>(s: seq<T>, i: nat, otherwise: T): T {
    if i < |s| then s[i] else otherwise
  }

  datatype Unresolved = Unresolved(key: string, title: string, sensitive: bool)

  datatype FillReport = FillReport(
    filled: set<string>, uploaded: set<string>, unresolved: seq<Unresolved>,
    errors: set<string>, uploadFailed: bool)

  /** The role a file control is uploaded under, when there is a file for it. */
  function UploadRole(ctx: Context, form: seq<Field>, i: nat): Option<string>
    requires i < |form|
  {
    match ctx.uploads
    case LegacyResume(present) => if form[i].key == "resume" && present then Some("resume") else None
    case PlanFailed => None
    case Planned(items) => if i in items then Some(items[i]) else None
  }

  /** Whether the fill loop reaches the page for this control. */
  predicate Attempted(ctx: Context, form: seq<Field>, i: nat)
    requires i < |form|
  {
    if form[i].kind == File then UploadRole(ctx, form, i).Some?
    else !ctx.confirmed(form[i].key, form[i].title).Missing()
  }

  function FilledRole(ctx: Context, form: seq<Field>, i: nat): string
    requires i < |form|
  {
    if form[i].kind == File && UploadRole(ctx, form, i).Some? then UploadRole(ctx, form, i).value else form[i].key
  }

  predicate FillsAt(ctx: Context, form: seq<Field>, readings: seq<FillRead>, i: nat) {
    i < |form| && Attempted(ctx, form, i) && At(readings, i, FillGone) == FillDone(true)
  }

  predicate FailsAt(ctx: Context, form: seq<Field>, readings: seq<FillRead>, i: nat) {
    i < |form| && Attempted(ctx, form, i) && At(readings, i, FillGone) == FillFails
  }

  function Filled(ctx: Context, form: seq<Field>, readings: seq<FillRead>): set<string> {
    set i | 0 <= i < |form| && FillsAt(ctx, form, readings, i) :: FilledRole(ctx, form, i)
  }

  function Uploaded(ctx: Context, form: seq<Field>, readings: seq<FillRead>): set<string> {
    set i | 0 <= i < |form| && FillsAt(ctx, form, readings, i) && form[i].kind == File :: FilledRole(ctx, form, i)
  }

  /** `fill`: exactly the attempted controls the page accepted are reported filled, and
      every required control that was not is reported unresolved. */
  method Fill(ctx: Context, form: seq<Field>, readings: seq<FillRead>) returns (r: FillReport)
    ensures r.filled == Filled(ctx, form, readings) && r.uploaded == Uploaded(ctx, form, readings)
    ensures r.errors == {} <==> forall i :: !FailsAt(ctx, form, readings, i)
    ensures r.unresolved == [] <==>
      forall i {:trigger form[i]} :: 0 <= i < |form| && form[i].required ==> FillsAt(ctx, form, readings, i)
    ensures forall i {:trigger form[i]} :: 0 <= i < |form| && form[i].required && !FillsAt(ctx, form, readings, i) ==>
      exists u :: u in r.unresolved && u.key == form[i].key && u.title == form[i].title
    ensures r.uploadFailed <==> ctx.uploads.PlanFailed?
  {
    var filled, uploaded, errors: set<string> := {}, {}, {};
    var unresolved: seq<Unresolved> := [];
    for i := 0 to |form|
      invariant forall k :: k in filled <==>
        exists j :: 0 <= j < i && FillsAt(ctx, form, readings, j) && FilledRole(ctx, form, j) == k
      invariant forall k :: k in uploaded <==>
        exists j :: 0 <= j < i && FillsAt(ctx, form, readings, j) && form[j].kind == File && FilledRole(ctx, form, j) == k
      invariant errors == {} <==> forall j :: 0 <= j < i ==> !FailsAt(ctx, form, readings, j)
      invariant unresolved == [] <==>
        forall j {:trigger form[j]} :: 0 <= j < i && form[j].required ==> FillsAt(ctx, form, readings, j)
      invariant forall j {:trigger form[j]} :: 0 <= j < i && form[j].required && !FillsAt(ctx, form, readings, j) ==>
        exists u :: u in unresolved && u.key == form[j].key && u.title == form[j].title
    {
      var field, read := form[i], At(readings, i, FillGone);
      var open := Unresolved(field.key, field.title, field.sensitive);
      var settled := false;
      ghost var failedBefore := errors;
      if read != FillGone && Attempted(ctx, form, i) {
        if read == FillFails {
          errors := errors + {field.key};
          assert field.key in errors;
        } else if read.ok {
          settled := true;
          filled := filled + {FilledRole(ctx, form, i)};
          if field.kind == File {
            uploaded := uploaded + {FilledRole(ctx, form, i)};
          }
        }
      }
      assert settled <==> FillsAt(ctx, form, readings, i);
      assert errors == failedBefore <== !FailsAt(ctx, form, readings, i);
      if field.required && !settled {
        ghost var before := unresolved;
        // `_unique_unresolved` keeps the first entry of a key and label.
        if forall u :: u in unresolved ==> u.key != open.key || u.title != open.title {
          unresolved := unresolved + [open];
          assert open in unresolved;
        }
        assert forall u :: u in before ==> u in unresolved;
      }
    }
    return FillReport(filled, uploaded, unresolved, errors, ctx.uploads.PlanFailed?);
  }

  datatype Problem =
    | LabelMissing(title: string) | FieldError(key: string) | UploadProblem | NoSubmitControl
    | Unavailable(key: string) | NoUpload(key: string) | NoMaterial(key: string)
    | DiffersFromMaterial(key: string) | NoVerifiedValue(key: string) | DiffersFromValue(key: string)
    | ReadFailed(key: string)

  /** A required control as `validate` accepts it; a control without a label is only
      rejected when reading it fails, because empty labels are dropped. */
  predicate PopulatedAt(form: seq<Field>, readings: seq<PopulatedRead>, i: nat)
    requires i < |form|
  {
    form[i].required ==>
      match At(readings, i, PopulatedGone)
      case Populated(yes) => yes || form[i].title == ""
      case PopulatedGone => form[i].title == ""
      case PopulatedFails => false
  }

  /** `validate`: valid exactly when the fill left nothing open and every required control
      reads as populated. */
  method Validate(form: seq<Field>, fill: FillReport, readings: seq<PopulatedRead>) returns (problems: set<Problem>)
    ensures problems == {} <==>
      && (forall u :: u in fill.unresolved ==> u.title == "")
      && fill.errors == {} && !fill.uploadFailed
      && forall i :: 0 <= i < |form| ==> PopulatedAt(form, readings, i)
  {
    problems := set u | u in fill.unresolved && u.title != "" :: LabelMissing(u.title);
    assert problems == {} <==> forall u :: u in fill.unresolved ==> u.title == "" by {
      forall u | u in fill.unresolved && u.title != "" ensures problems != {} {
        assert LabelMissing(u.title) in problems;
      }
    }
    ghost var openLabels := problems;
    var errors := set k | k in fill.errors :: FieldError(k);
    assert errors == {} <==> fill.errors == {} by {
      forall k | k in fill.errors ensures errors != {} { assert FieldError(k) in errors; }
    }
    problems := problems + errors;
    if fill.uploadFailed {
      problems := problems + {UploadProblem};
    }
    ghost var early := problems;
    for i := 0 to |form|
      invariant problems == {} <==> early == {} && forall j :: 0 <= j < i ==> PopulatedAt(form, readings, j)
    {
      ghost var found := problems;
      if form[i].required {
        var read := At(readings, i, PopulatedGone);
        if read == PopulatedFails {
          problems := problems + {FieldError(form[i].key)};
          assert FieldError(form[i].key) in problems;
        }
        if read != Populated(true) && form[i].title != "" {
          problems := problems + {LabelMissing(form[i].title)};
          assert LabelMissing(form[i].title) in problems;
        }
      }
      assert found <= problems && (PopulatedAt(form, readings, i) ==> found == problems);
    }
  }

  /** `_readback_matches_verified_value`. */
  predicate Matches(n: Normal, field: Field, state: ReadState, expected: Expected) {
    match field.kind
    case Checkbox =>
      state.checked == if expected.Flag? then expected.on else expected.Text? && n.affirmative(expected.text)
    case Radio => state.checked && n.fold(Target(expected)) in {n.fold(state.value), n.fold(state.caption)}
    case Select => n.fold(Target(expected)) in {n.fold(state.value), n.fold(state.caption)}
    case _ =>
      var target := Target(expected);
      if field.key == "phone" then n.digits(target) != "" && n.digits(state.value) == n.digits(target)
      else if field.key in {"linkedin", "github", "portfolio"} then
        n.trimSlash(n.fold(state.value)) == n.trimSlash(n.fold(target))
      else n.fold(state.value) == n.fold(target)
  }

  /** `str(expected)`. */
  function Target(e: Expected): string {
    match e
    case NoValue => "None"
    case Flag(on) => if on then "True" else "False"
    case Text(text) => text
  }

  predicate MustMatch(ctx: Context, s: Script, i: nat)
    requires i < |s.form|
  {
    || s.form[i].required
    || s.form[i].key in Filled(ctx, s.form, s.fills)
    || s.form[i].key in Uploaded(ctx, s.form, s.fills)
  }

  /** The read-back of one control agrees with its verified value or material. */
  predicate AgreesAt(ctx: Context, s: Script, i: nat)
    requires i < |s.form|
  {
    var field := s.form[i];
    var filled, uploaded := Filled(ctx, s.form, s.fills), Uploaded(ctx, s.form, s.fills);
    match At(s.states, i, StateGone)
    case StateGone => !field.required && field.key !in filled
    case StateFails => false
    case State(state) =>
      if field.kind == File then
        && Corrupt !in state.files
        && (field.key in uploaded ==> state.files != [])
        && (MustMatch(ctx, s, i) ==>
              && ctx.file(field.key).Bytes?
              && exists f :: f in state.files && f.Content? && f.bytes == ctx.file(field.key).bytes)
      else
        MustMatch(ctx, s, i) ==>
          var expected := ctx.confirmed(field.key, field.title);
          !expected.Missing() && Matches(ctx.normal, field, state, expected)
  }

  datatype Readback = Readback(index: nat, key: string, state: ReadState)

  datatype Material = Material(index: nat, key: string, bytes: string)

  /** A read-back of control `i` whose files are listed among the materials. */
  predicate Recorded(form: seq<Field>, materials: seq<Material>, i: nat, state: ReadState)
    requires i < |form|
  {
    form[i].kind == File ==>
      forall f :: f in state.files ==> f.Content? && Material(i, form[i].key, f.bytes) in materials
  }

  function FileMaterials(i: nat, key: string, files: seq<FileRead>): (r: seq<Material>)
    requires Corrupt !in files
    ensures forall f :: f in files ==> f.Content? && Material(i, key, f.bytes) in r
    ensures forall m :: m in r ==> m.index == i
  {
    if files == [] then []
    else
      var last := files[|files| - 1];
      assert last in files;
      assert last != Corrupt;
      FileMaterials(i, key, files[..|files| - 1]) + [Material(i, key, last.bytes)]
  }

  /** `_review_binding_digests`: no error exactly when every control agrees; the read-backs
      are the states read, in form order, and the materials the bytes attached. */
  method ReviewBindingDigests(ctx: Context, s: Script, fill: FillReport)
    returns (readbacks: seq<Readback>, materials: seq<Material>, errors: set<Problem>)
    requires fill.filled == Filled(ctx, s.form, s.fills) && fill.uploaded == Uploaded(ctx, s.form, s.fills)
    ensures errors == {} <==> forall i :: 0 <= i < |s.form| ==> AgreesAt(ctx, s, i)
    ensures forall r :: r in readbacks ==>
      && r.index < |s.form| && r.key == s.form[r.index].key
      && At(s.states, r.index, StateGone) == State(r.state)
      && Recorded(s.form, materials, r.index, r.state)
    ensures errors == {} ==> forall i :: 0 <= i < |s.form| && At(s.states, i, StateGone).State? ==>
      Readback(i, s.form[i].key, At(s.states, i, StateGone).state) in readbacks
    ensures forall j, k :: 0 <= j < k < |readbacks| ==> readbacks[j].index < readbacks[k].index
  {
    readbacks, materials, errors := [], [], {};
    for i := 0 to |s.form|
      invariant errors == {} <==> forall j :: 0 <= j < i ==> AgreesAt(ctx, s, j)
      invariant forall r :: r in readbacks ==>
        && r.index < i && r.key == s.form[r.index].key
        && At(s.states, r.index, StateGone) == State(r.state)
        && Recorded(s.form, materials, r.index, r.state)
      invariant errors == {} ==> forall j :: 0 <= j < i && At(s.states, j, StateGone).State? ==>
        Readback(j, s.form[j].key, At(s.states, j, StateGone).state) in readbacks
      invariant forall j, k :: 0 <= j < k < |readbacks| ==> readbacks[j].index < readbacks[k].index
    {
      var found, kept, broken;
      found, kept, broken := ReadOne(ctx, s, fill, i);
      ghost var before, listed := readbacks, materials;
      materials := materials + found;
      errors := errors + broken;
      if kept {
        readbacks := readbacks + [Readback(i, s.form[i].key, At(s.states, i, StateGone).state)];
      }
      assert forall r :: r in before ==> Recorded(s.form, listed, r.index, r.state) && Recorded(s.form, materials, r.index, r.state);
    }
  }

  /** One iteration of that loop. */
  method ReadOne(ctx: Context, s: Script, fill: FillReport, i: nat)
    returns (materials: seq<Material>, kept: bool, errors: set<Problem>)
    requires i < |s.form|
    requires fill.filled == Filled(ctx, s.form, s.fills) && fill.uploaded == Uploaded(ctx, s.form, s.fills)
    ensures errors == {} <==> AgreesAt(ctx, s, i)
    ensures kept ==> At(s.states, i, StateGone).State?
                     && Recorded(s.form, materials, i, At(s.states, i, StateGone).state)
    ensures errors == {} && At(s.states, i, StateGone).State? ==> kept
  {
    var field := s.form[i];
    var key := field.key;
    materials, kept, errors := [], false, {};
    match At(s.states, i, StateGone)
    case StateGone =>
      if field.required || key in fill.filled {
        errors := {Unavailable(key)};
      }
    case StateFails =>
      errors := {ReadFailed(key)};
    case State(state) =>
      kept := true;
      if field.kind == File {
        if Corrupt in state.files { return [], false, {ReadFailed(key)}; }
        materials := FileMaterials(i, key, state.files);
        if key in fill.uploaded && state.files == [] {
          errors := errors + {NoUpload(key)};
        }
        if MustMatch(ctx, s, i) {
          var lookup := ctx.file(key);
          if lookup == Unreadable { return materials, false, errors + {ReadFailed(key)}; }
          if lookup == NoFile {
            errors := errors + {NoMaterial(key)};
          } else if forall f :: f in state.files ==> f.Content? && f.bytes != lookup.bytes {
            errors := errors + {DiffersFromMaterial(key)};
          }
        }
      } else if MustMatch(ctx, s, i) {
        var expected := ctx.confirmed(key, field.title);
        if expected.Missing() {
          errors := {NoVerifiedValue(key)};
        } else if !Matches(ctx.normal, field, state, expected) {
          errors := {DiffersFromValue(key)};
        }
      }
  }

  /** What the fingerprint hashes.  Sorted lists are sets or multisets here, and nested
      digests are their contents. */
  datatype Payload = Payload(
    adapter: string, jobId: string, signature: string, filled: set<string>, uploaded: set<string>,
    unresolved: multiset<string>, problems: set<Problem>, submitShown: bool, reviewMarker: bool,
    readbacks: seq<Readback>, materials: multiset<Material>)

  /** What must hold of the page, control by control, for the review to be ready. */
  ghost predicate Ready(ctx: Context, s: Script) {
    && (forall i {:trigger s.form[i]} :: 0 <= i < |s.form| && s.form[i].required ==> FillsAt(ctx, s.form, s.fills, i))
    && (forall i :: !FailsAt(ctx, s.form, s.fills, i))
    && !ctx.uploads.PlanFailed?
    && (forall i :: 0 <= i < |s.form| ==> PopulatedAt(s.form, s.populated, i))
    && s.submitShown
    && (forall i :: 0 <= i < |s.form| ==> AgreesAt(ctx, s, i))
  }

  /** The payload holds exactly what was read: every read-back is a reading of the page, and
      when `complete` no reading is missing from it. */
  ghost predicate Pins(p: Payload, s: Script, complete: bool) {
    && (forall r :: r in p.readbacks ==> r.index < |s.form| && At(s.states, r.index, StateGone) == State(r.state))
    && (complete ==> forall i :: 0 <= i < |s.form| && At(s.states, i, StateGone).State? ==>
          Readback(i, s.form[i].key, At(s.states, i, StateGone).state) in p.readbacks)
  }

  /** What an approval approves: a page whose ready review has the approved fingerprint reads
      the same, control by control, as the page whose review was approved. */
  lemma SameFingerprintSameReadings(sha: Payload -> string, again: Payload -> string, approved: Payload, clicked: Payload, s: Script, t: Script)
    requires OneHash(sha, again)
    requires sha(approved) == again(clicked) && Pins(approved, s, true) && Pins(clicked, t, true)
    ensures SameReadings(s, t) && SameReadings(t, s)
  {
    assert approved == clicked;
  }

  /** Both passes hash alike, and different payloads differently. */
  ghost predicate OneHash(sha: Payload -> string, again: Payload -> string) {
    forall p, q :: sha(p) == again(q) ==> p == q
  }

  /** Every control that reads in the first page reads the same in the second. */
  ghost predicate SameReadings(s: Script, t: Script) {
    forall i :: 0 <= i < |s.form| && At(s.states, i, StateGone).State? ==>
      i < |t.form| && At(t.states, i, StateGone) == At(s.states, i, StateGone)
  }

  /** `prepare_review`: ready exactly when the page is, and hashing what was read. */
  method PrepareReview(ctx: Context, s: Script, fill: FillReport, problems: set<Problem>)
    returns (payload: Payload, ready: bool)
    requires fill.filled == Filled(ctx, s.form, s.fills) && fill.uploaded == Uploaded(ctx, s.form, s.fills)
    requires fill.errors == {} <==> forall i :: !FailsAt(ctx, s.form, s.fills, i)
    requires fill.uploadFailed <==> ctx.uploads.PlanFailed?
    requires fill.unresolved == [] <==>
      forall i {:trigger s.form[i]} :: 0 <= i < |s.form| && s.form[i].required ==> FillsAt(ctx, s.form, s.fills, i)
    requires problems == {} <==>
      && (forall u :: u in fill.unresolved ==> u.title == "")
      && fill.errors == {} && !fill.uploadFailed
      && forall i :: 0 <= i < |s.form| ==> PopulatedAt(s.form, s.populated, i)
    ensures ready <==> Ready(ctx, s)
    ensures Pins(payload, s, ready)
    ensures payload.jobId == ctx.jobId && payload.adapter == ctx.adapter && payload.signature == s.signature
    ensures payload.filled == fill.filled && payload.uploaded == fill.uploaded
  {
    var readbacks, materials, broken := ReviewBindingDigests(ctx, s, fill);
    var missing := if s.submitShown then {} else {NoSubmitControl};
    payload := Payload(ctx.adapter, ctx.jobId, s.signature, fill.filled, fill.uploaded,
                       multiset(Titles(fill.unresolved)), problems + missing + broken, s.submitShown,
                       s.reviewMarker, readbacks, multiset(materials));
    ready := problems == {} && fill.unresolved == [] && s.submitShown && broken == {};
  }

  function Titles(open: seq<Unresolved>): seq<string> {
    seq(|open|, i requires 0 <= i < |open| => open[i].title)
  }

  /** A ready review means that every required, filled or uploaded control was freshly read
      and shows its verified value, or holds the bytes of its verified material. */
  lemma ReadyMeansAgreement(ctx: Context, s: Script, i: nat)
    requires Ready(ctx, s) && i < |s.form| && MustMatch(ctx, s, i)
    ensures At(s.states, i, StateGone).State?
    ensures s.form[i].kind == File ==>
      exists f :: f in At(s.states, i, StateGone).state.files && f.Content? && ctx.file(s.form[i].key) == Bytes(f.bytes)
    ensures s.form[i].kind != File ==>
      && !ctx.confirmed(s.form[i].key, s.form[i].title).Missing()
      && Matches(ctx.normal, s.form[i], At(s.states, i, StateGone).state, ctx.confirmed(s.form[i].key, s.form[i].title))
  {
    assert AgreesAt(ctx, s, i);
    UploadedAreFilled(ctx, s.form, s.fills);
  }

  lemma UploadedAreFilled(ctx: Context, form: seq<Field>, answers: seq<FillRead>)
    ensures Uploaded(ctx, form, answers) <= Filled(ctx, form, answers)
  {
  }

  datatype SubmissionEvidence = SubmissionEvidence(text: string, url: string, applicationId: string) {
    predicate Verified() { text != "" || url != "" || applicationId != "" }

    function Refs(digest: string -> string): (r: seq<Evidence>)
      ensures EligibleEvidence(r).Some? <==> Verified()
    {
      var a := if text == "" then [] else [Evidence(ConfirmationText, digest(text))];
      var b := if url == "" then [] else [Evidence(ConfirmationUrl, digest(url))];
      var c := if applicationId == "" then [] else [Evidence(AtsApplicationId, digest(applicationId))];
      assert Verified() ==> (a + b + c)[0] in a + b + c;
      a + b + c
    }
  }

  /** A confirmation element that is visible and says so. */
  predicate Confirms(r: ConfirmationRead) {
    r.Shown? && r.text != "" && r.positive
  }

  /** `verify_submission`: verified exactly when some element or the URL confirms. */
  method VerifySubmission(elements: seq<ConfirmationRead>, confirmingUrl: string) returns (e: SubmissionEvidence)
    ensures e.Verified() <==> ShowsConfirmation(elements, confirmingUrl)
    ensures e.url == confirmingUrl
  {
    for i := 0 to |elements|
      invariant forall j :: 0 <= j < i ==> !Confirms(elements[j])
    {
      if Confirms(elements[i]) {
        return SubmissionEvidence(elements[i].text, confirmingUrl, elements[i].applicationId);
      }
    }
    return SubmissionEvidence("", confirmingUrl, "");
  }

  /** The browser page: the submit locks of the current document.  The rest is a trace of what
      adapters did on it: how often they clicked, how often the validator told them yes, and
      for every adapter run how long the ledger was when its call began. */
  class Page {
    var locks: set<string>
    ghost var clicks: nat
    ghost var granted: nat
    ghost var runs: seq<nat>

    constructor ()
      ensures locks == {} && clicks == 0 && granted == 0 && runs == []
    {
      locks, clicks, granted, runs := {}, 0, 0, [];
    }
  }

  function LockKey(jobId: string, fingerprint: string): string {
    jobId + ":" + fingerprint
  }

  datatype SubmitResult = Clicked | NotClicked | SubmitRaised

  /** `submit`: one click per lock key and document; a click that raises counts as one. */
  method Submit(page: Page, s: Script, key: string) returns (r: SubmitResult, issued: bool)
    modifies page`locks, page`clicks
    ensures issued <==> s.submitStillShown && s.lockAnswers && key !in old(page.locks)
    ensures page.clicks == old(page.clicks) + if issued then 1 else 0
    ensures page.locks == old(page.locks) + if s.submitStillShown && s.lockAnswers then {key} else {}
    ensures r == NotClicked <==> s.submitStillShown && s.lockAnswers && key in old(page.locks)
    ensures r == Clicked <==> s.submitStillShown && s.lockAnswers && key !in old(page.locks) && s.clickWorks && s.settles
  {
    if !s.submitStillShown || !s.lockAnswers { return SubmitRaised, false; }
    if key in page.locks {
      assert page.locks == page.locks + {key};
      return NotClicked, false;
    }
    page.locks := page.locks + {key};
    page.clicks := page.clicks + 1;
    return if s.clickWorks && s.settles then Clicked else SubmitRaised, true;
  }

  /** The stages that matter, in the order in which they are reached. */
  datatype Step =
    | ReviewedReady(fingerprint: string) | NoPriorConfirmation | PermitAccepted(fingerprint: string)
    | ClickIssued | EvidenceSeen

  function FullTrace(fingerprint: string): seq<Step> {
    [ReviewedReady(fingerprint), NoPriorConfirmation, PermitAccepted(fingerprint), ClickIssued, EvidenceSeen]
  }

  function Told(ctx: Context, status: Status, reason: Reason, fingerprint: string, evidence: seq<Evidence>): Outcome {
    Outcome(ctx.runId, ctx.jobId, status, reason, ctx.adapter, status == FailedRetryable, fingerprint, evidence,
            NO_DETAILS.(review := fingerprint))
  }

  function Call(runId: string, jobId: string, token: Token, fingerprint: string, s: Surroundings): ValidatorCall {
    ValidatorCall(token, jobId, runId, fingerprint, s.leases, s.now, s.beforeConsume, s.beforeCreate, s.beforeStart)
  }

  /** What a run has done to the validator: nothing, or one grant for this very review.  If
      nobody else writes, it recorded no outcome and, if it survived, kept the box steady. */
  twostate predicate ValidatorEffect(runId: string, jobId: string, validator: GateBValidator?, granted: bool,
                                     fingerprint: string, alone: bool, survived: bool)
    reads validator, if validator == null then {} else {validator.ledger}
  {
    && (granted ==> validator != null)
    && (validator != null ==>
          && validator.Valid() && old(validator.ledger.events) <= validator.ledger.events
          && (alone ==> NoOutcomesSince(validator.ledger.events, |old(validator.ledger.events)|))
          && (alone && survived && old(validator.Valid() && validator.Steady()) ==>
                validator.Steady() && validator.ledger.runs == old(validator.ledger.runs))
          && (!granted ==> validator.grants == old(validator.grants))
          && (granted ==>
                && |validator.grants| == |old(validator.grants)| + 1
                && validator.grants[..|old(validator.grants)|] == old(validator.grants)
                && var call := validator.grants[|old(validator.grants)|].call;
                  call.runId == runId && call.jobId == jobId && call.fingerprint == fingerprint))
  }

  /** `invoke_gate_b_validator`: without a validator or a permit the answer is no. */
  method AskValidator(runId: string, jobId: string, fp: string, s: Surroundings, validator: GateBValidator?, permit: Option<Token>)
    returns (answer: Answer)
    requires validator != null ==> validator.Valid()
    modifies validator, if validator == null then {} else {validator.ledger}
    ensures ValidatorEffect(runId, jobId, validator, answer == Granted, fp, s.Alone(), true)
    ensures validator == null || permit.None? ==> answer == Refused
  {
    if validator == null || permit.None? { return Refused; }
    answer := validator.Validate(Call(runId, jobId, permit.value, fp, s));
  }

  /** The stages before submission: an early outcome, or a ready review to be submitted. */
  method Prepare(ctx: Context, s: Script, sha: Payload -> string)
    returns (early: Option<Outcome>, payload: Option<Payload>, ready: bool)
    ensures ready <==> s.loads && s.supported == Some(true) && s.inspected && Ready(ctx, s)
    ensures payload.Some? ==> Pins(payload.value, s, ready) && payload.value.jobId == ctx.jobId
    ensures ready ==> payload.Some?
    ensures early.None? <==> ready && ctx.requestSubmit
    ensures early.Some? ==>
      && early.value.runId == ctx.runId && early.value.jobId == ctx.jobId
      && (early.value.retryable <==> early.value.status == FailedRetryable)
      && (early.value.status == ReviewReady <==> ready)
      && early.value.status !in {SubmittedVerified, AwaitingGateB, SubmitUnknown}
      && (ready ==> ReviewHash(early.value) == early.value.details.review == sha(payload.value))
  {
    payload, ready := None, false;
    if !s.loads || s.supported.None? || (s.supported.value && !s.inspected) {
      return Some(Told(ctx, FailedRetryable, RetryableBrowserError, "", [])), payload, ready;
    }
    if !s.supported.value {
      return Some(Told(ctx, FailedUnsupported, UnsupportedAts, "", [])), payload, ready;
    }
    var fill := Fill(ctx, s.form, s.fills);
    var problems := Validate(s.form, fill, s.populated);
    var review, isReady := PrepareReview(ctx, s, fill, problems);
    payload, ready := Some(review), isReady;
    if !isReady {
      var sensitive := exists u :: u in fill.unresolved && u.sensitive;
      var unknown := exists u :: u in fill.unresolved && u.key == "unknown";
      var reason := if sensitive then SensitiveAnswerRequired else if unknown then UnknownRequiredQuestion
                    else if review.problems != {} then ValidationFailed else MissingMaterial;
      var status := if sensitive then NeedsUserSensitiveAnswer else NeedsUser;
      return Some(Told(ctx, status, reason, sha(review), []).(checkpoint := "")), payload, ready;
    }
    if !ctx.requestSubmit {
      return Some(Told(ctx, ReviewReady, ReviewComplete, sha(review), [])), payload, ready;
    }
    return None, payload, ready;
  }

  /** The click is issued under a free lock and nothing raises. */
  predicate ClickLands(ctx: Context, s: Script, fp: string, locks: set<string>) {
    s.submitStillShown && s.lockAnswers && LockKey(ctx.jobId, fp) !in locks && s.clickWorks && s.settles
  }

  /** Some visible element, or the URL, confirms. */
  predicate ShowsConfirmation(elements: seq<ConfirmationRead>, confirmingUrl: string) {
    confirmingUrl != "" || exists i :: 0 <= i < |elements| && Confirms(elements[i])
  }

  /** The stages after the permit was accepted; `None` when the process dies. */
  method ClickAndVerify(ctx: Context, page: Page, s: Script, fp: string, digest: string -> string)
    returns (o: Option<Outcome>, ghost steps: seq<Step>)
    requires !s.DiesAt(3)
    modifies page`locks, page`clicks
    ensures steps == [] || steps == [ClickIssued] || steps == [ClickIssued, EvidenceSeen]
    ensures page.clicks == old(page.clicks) + if steps == [] then 0 else 1
    ensures o.None? <==> s.DiesAt(3 + |steps|)
    ensures |steps| == 2 <==> ClickLands(ctx, s, fp, old(page.locks)) && ShowsConfirmation(s.after, s.afterUrl) && !s.DiesAt(4)
    ensures o.Some? ==> ClickResult(ctx, s, fp, o.value, old(page.locks)) && (o.value.status == SubmittedVerified <==> |steps| == 2)
  {
    steps := [];
    var clicked, issued := Submit(page, s, LockKey(ctx.jobId, fp));
    if issued {
      steps := steps + [ClickIssued];
      if s.DiesAt(4) { return None, steps; }
    }
    if clicked == SubmitRaised {
      return Some(Told(ctx, FailedRetryable, RetryableBrowserError, "", [])), steps;
    }
    if clicked == NotClicked {
      return Some(Told(ctx, SkippedPolicy, Reason.DuplicateSubmission, fp, [])), steps;
    }
    var evidence := VerifySubmission(s.after, s.afterUrl);
    if !evidence.Verified() {
      return Some(Told(ctx, SubmitUnknown, ConfirmationMissing, fp, [])), steps;
    }
    steps := steps + [EvidenceSeen];
    if s.DiesAt(5) { return None, steps; }
    return Some(Told(ctx, SubmittedVerified, SubmissionConfirmed, fp, evidence.Refs(digest))), steps;
  }

  /** The result of the click is determined by whether it lands and a confirmation shows. */
  predicate ClickResult(ctx: Context, s: Script, fp: string, o: Outcome, locks: set<string>) {
    && o.runId == ctx.runId && o.jobId == ctx.jobId
    && o.status in {SubmittedVerified, SubmitUnknown, SkippedPolicy, FailedRetryable}
    && (o.status == SubmittedVerified <==> ClickLands(ctx, s, fp, locks) && ShowsConfirmation(s.after, s.afterUrl))
    && (o.status == SubmittedVerified ==> EligibleEvidence(o.evidence).Some?)
    && (o.status == SubmitUnknown <==> ClickLands(ctx, s, fp, locks) && !ShowsConfirmation(s.after, s.afterUrl))
    && (o.status == SkippedPolicy <==> s.submitStillShown && s.lockAnswers && LockKey(ctx.jobId, fp) in locks)
    && (o.retryable <==> o.status == FailedRetryable)
  }

  /** How the stages between a ready review and the click end. */
  datatype Permission = Early(outcome: Outcome) | Permitted | Perished

  /** An early outcome, permission to click, or the death of the process. */
  method Authorize(ctx: Context, page: Page, s: Script, fp: string, validator: GateBValidator?, permit: Option<Token>)
    returns (r: Permission, ghost steps: seq<Step>)
    requires !s.DiesAt(1)
    requires validator != null ==> validator.Valid()
    modifies page`granted, validator, if validator == null then {} else {validator.ledger}
    ensures page.granted == old(page.granted) + if |steps| == 2 then 1 else 0
    ensures ValidatorEffect(ctx.runId, ctx.jobId, validator, |steps| == 2, fp, s.Alone(), !r.Perished?)
    ensures steps == [] || steps == [NoPriorConfirmation] || steps == [NoPriorConfirmation, PermitAccepted(fp)]
    ensures r.Perished? <==> s.DiesAt(1 + |steps|)
    ensures |steps| == 2 <==> r.Permitted? || (r.Perished? && s.DiesAt(3))
    ensures steps == [] <==> ShowsConfirmation(s.before, s.beforeUrl)
    ensures r.Early? ==>
      && r.outcome.runId == ctx.runId && r.outcome.jobId == ctx.jobId
      && r.outcome.status in {SubmitUnknown, AwaitingGateB, FailedRetryable}
      && (r.outcome.status == SubmitUnknown <==> steps == [])
      && (r.outcome.retryable <==> r.outcome.status == FailedRetryable)
  {
    steps := [];
    var prior := VerifySubmission(s.before, s.beforeUrl);
    if prior.Verified() {
      return Early(Told(ctx, SubmitUnknown, ConfirmationMissing, fp, [])), steps;
    }
    steps := steps + [NoPriorConfirmation];
    var answer := Ask(ctx, page, s, fp, validator, permit);
    match answer {
      case None => return Perished, steps;
      case Some(RaisedError) => return Early(Told(ctx, FailedRetryable, RetryableBrowserError, "", [])), steps;
      case Some(Refused) => return Early(Told(ctx, AwaitingGateB, GateBRequired, fp, [])), steps;
      case Some(Granted) =>
        steps := steps + [PermitAccepted(fp)];
        return if s.DiesAt(3) then Perished else Permitted, steps;
    }
  }

  /** The validator's answer, unless the process dies in the call. */
  method Ask(ctx: Context, page: Page, s: Script, fp: string, validator: GateBValidator?, permit: Option<Token>)
    returns (answer: Option<Answer>)
    requires validator != null ==> validator.Valid()
    modifies page`granted, validator, if validator == null then {} else {validator.ledger}
    ensures page.granted == old(page.granted) + if answer == Some(Granted) then 1 else 0
    ensures ValidatorEffect(ctx.runId, ctx.jobId, validator, answer == Some(Granted), fp, s.Alone(), answer.Some?)
    ensures answer.None? <==> s.DiesAt(2)
  {
    if !s.DiesAt(2) {
      var told := AskValidator(ctx.runId, ctx.jobId, fp, s.around, validator, permit);
      if told == Granted {
        page.granted := page.granted + 1;
      }
      return Some(told);
    }
    if validator != null && permit.Some? {
      validator.Interfere(s.death.value.lastWrites);
    }
    return None;
  }

  /** What the outcome must satisfy after so many of the five stages. */
  predicate SubmitResultFits(ctx: Context, o: Outcome, passed: nat) {
    && o.runId == ctx.runId && o.jobId == ctx.jobId
    && (o.status == SubmittedVerified <==> passed == 5)
    && (o.status == SubmittedVerified ==> EligibleEvidence(o.evidence).Some?)
    && (passed >= 3 ==> o.status in {SubmittedVerified, SubmitUnknown, SkippedPolicy, FailedRetryable})
    && (o.retryable <==> o.status == FailedRetryable)
  }

  /** The stages after a ready review; `None` when the process dies. */
  method SubmitReviewed(ctx: Context, page: Page, s: Script, fp: string, digest: string -> string,
                        validator: GateBValidator?, permit: Option<Token>)
    returns (o: Option<Outcome>, ghost trace: seq<Step>)
    requires !s.DiesAt(1)
    requires validator != null ==> validator.Valid()
    modifies page`locks, page`clicks, page`granted, validator, if validator == null then {} else {validator.ledger}
    ensures page.granted == old(page.granted) + if |trace| >= 3 then 1 else 0
    ensures 1 <= |trace| && trace <= FullTrace(fp)
    ensures ValidatorEffect(ctx.runId, ctx.jobId, validator, |trace| >= 3, fp, s.Alone(), o.Some?)
    ensures page.clicks == old(page.clicks) + if |trace| >= 4 then 1 else 0
    ensures o.None? <==> s.DiesAt(|trace|)
    ensures o.Some? ==> SubmitResultFits(ctx, o.value, |trace|) && o.value.status != ReviewReady
  {
    var r;
    ghost var asked, clicked;
    r, asked := Authorize(ctx, page, s, fp, validator, permit);
    InOrder(fp, asked, []);
    trace := [ReviewedReady(fp)] + asked;
    if !r.Permitted? { return if r.Early? then Some(r.outcome) else None, trace; }
    label Permitted:
    o, clicked := ClickAndVerify(ctx, page, s, fp, digest);
    assert unchanged@Permitted(validator) && unchanged@Permitted(validator.ledger);
    InOrder(fp, asked, clicked);
    trace := trace + clicked;
  }

  /** `run`.  The trace records how far it came; a submission is reported verified exactly
      when all five stages were passed in order, with one click.  `None` means that the
      process died after the stages of the trace. */
  method Run(ctx: Context, page: Page, s: Script, sha: Payload -> string, digest: string -> string,
             validator: GateBValidator?, permit: Option<Token>)
    returns (o: Option<Outcome>, ghost trace: seq<Step>, payload: Option<Payload>)
    requires validator != null ==> validator.Valid()
    modifies page`locks, page`clicks, page`granted, validator, if validator == null then {} else {validator.ledger}
    ensures page.granted == old(page.granted) + if |trace| >= 3 then 1 else 0
    ensures payload.None? ==> trace == []
    ensures trace <= FullTrace(Fingerprint(sha, payload))
    ensures ValidatorEffect(ctx.runId, ctx.jobId, validator, |trace| >= 3, Fingerprint(sha, payload), s.Alone(), o.Some?)
    ensures page.clicks == old(page.clicks) + if |trace| >= 4 then 1 else 0
    ensures trace != [] <==> !s.DiesAt(0) && s.loads && s.supported == Some(true) && s.inspected && Ready(ctx, s)
    ensures payload.Some? ==> Pins(payload.value, s, trace != []) && payload.value.jobId == ctx.jobId
    ensures o.None? <==> s.DiesAt(|trace|)
    ensures o.Some? ==>
      && SubmitResultFits(ctx, o.value, |trace|)
      && (o.value.status == SubmittedVerified <==> trace == FullTrace(Fingerprint(sha, payload)))
      && (o.value.status == ReviewReady <==> trace != [] && !ctx.requestSubmit)
      && (o.value.status == ReviewReady ==> |trace| == 1 && ReviewHash(o.value) == o.value.details.review == Fingerprint(sha, payload))
  {
    if s.DiesAt(0) { return None, [], None; }
    if s.loads && ctx.navigate {
      page.locks := {};
    }
    var early, ready;
    early, payload, ready := Prepare(ctx, s, sha);
    var fp := Fingerprint(sha, payload);
    trace := if ready then [ReviewedReady(fp)] else [];
    if ready && s.DiesAt(1) { return None, trace, payload; }
    if early.Some? { return early, trace, payload; }
    o, trace := SubmitReviewed(ctx, page, s, fp, digest, validator, permit);
  }

  /** Steps appended stage by stage form a prefix of the full trace. */
  lemma InOrder(fp: string, asked: seq<Step>, clicked: seq<Step>)
    requires asked == [] || asked == [NoPriorConfirmation] || asked == [NoPriorConfirmation, PermitAccepted(fp)]
    requires clicked == [] || clicked == [ClickIssued] || clicked == [ClickIssued, EvidenceSeen]
    requires clicked != [] ==> |asked| == 2
    ensures [ReviewedReady(fp)] + asked + clicked <= FullTrace(fp)
    ensures |[ReviewedReady(fp)] + asked + clicked| == 1 + |asked| + |clicked|
  {
  }

  function Fingerprint(sha: Payload -> string, payload: Option<Payload>): string {
    if payload.Some? then sha(payload.value) else ""
  }
}
