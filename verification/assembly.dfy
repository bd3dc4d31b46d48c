/** `assemble_application_bundle` (core/application_bundle_assembly.py) and the loader of its
    execution context (core/application_assembly_execution_context.py): content-addressed,
    write-once records, each followed by a recoverable envelope of its bundle.

    A call is cut into the steps between which other calls can run or the process can die:
    the listing, the look at the envelope of a listed record, the record, the envelope. */
module Assembly {
  import opened Common

  datatype Entry = Entry(id: string, hash: string)

  /** The prepared inputs that a replay compares. */
  datatype Preparation = Preparation(
    subject: string, planId: string, jobId: string, jobRevision: nat, jobHash: string,
    manifest: Entry, answerSet: Entry, resume: Entry, cover: Entry)

  /** The execution context a command names, and a record repeats. */
  datatype ContextRef = ContextRef(
    profile: Entry, profileVersion: string, policy: Entry, policyVersion: string, binding: string)

  const PROFILE_VERSION := "verified-application-execution-profile-v1"
  const POLICY_VERSION := "plan-execution-policy-decision-record-v1"

  datatype Tier = High | Medium | Low

  datatype RunId = RunId(answers: string, planId: string, jobHash: string, manifest: string, binding: string)

  datatype JobSpec = JobSpec(jobId: string, url: string, company: string, title: string, tier: Tier)

  datatype Bundle = Bundle(
    runId: RunId, job: JobSpec, materials: string, profile: string, answers: string, policy: string)

  /** What the immutable inputs say: posting, manifest and answer set by the hashes of the
      preparation, profile and policy by those of the context. */
  datatype Vault = Vault(
    url: Preparation -> Option<string>, company: Preparation -> string, title: Preparation -> string,
    materials: Preparation -> string, answers: Preparation -> string,
    profile: ContextRef -> string, policy: ContextRef -> string,
    binding: (Preparation, ContextRef) -> string)

  function RunOf(p: Preparation, c: ContextRef): RunId {
    RunId(p.answerSet.hash, p.planId, p.jobHash, p.manifest.hash, c.binding)
  }

  /** The comparison of the factory's bundle with the prepared inputs. */
  predicate KeepsInputs(v: Vault, p: Preparation, c: ContextRef, b: Bundle) {
    && b.runId == RunOf(p, c)
    && b.job.jobId == p.jobId
    && v.url(p) == Some(b.job.url)
    && b.job.company == v.company(p)
    && b.job.title == v.title(p)
    && b.materials == v.materials(p)
    && b.answers == v.answers(p)
    && b.profile == v.profile(c)
    && b.policy == v.policy(c)
  }

  /** Only the tier of the job is hashed without having been compared. */
  lemma TierDecidesBundle(v: Vault, p: Preparation, c: ContextRef, a: Bundle, b: Bundle)
    requires KeepsInputs(v, p, c, a) && KeepsInputs(v, p, c, b)
    ensures a == b <==> a.job.tier == b.job.tier
  {
  }

  datatype Version = V1 | V2

  /** The content a record is addressed by; it leaves out the time. */
  datatype Content = Content(version: Version, prep: Preparation, context: ContextRef, bundle: Bundle)

  datatype Record = Record(content: Content, assembledAt: int)

  datatype Envelope = Envelope(planId: string, record: Record, bundle: Bundle)

  /** The record is a version-2 record of this preparation and context. */
  predicate Keyed(k: Content, p: Preparation, c: ContextRef) {
    k.version == V2 && k.prep == p && k.context == c
  }

  function EnvelopeOf(r: Record): Envelope {
    Envelope(r.content.prep.planId, r, r.content.bundle)
  }

  /** What the providers of the execution context return. */
  datatype ProfileRead =
    | ProfileRaises | ProfileNotFound | ProfileConflict | ProfileBroken
    | ProfileFound(subject: string, planId: string, jobId: string, ref: Entry, version: string, boundToPlan: bool)

  datatype PolicyRead =
    | PolicyRaises | PolicyNotFound | PolicyConflict | PolicyBroken
    | PolicyFound(subject: string, planId: string, jobId: string, ref: Entry, version: string, boundToPlan: bool)

  datatype Failure =
    | InvalidRequest | NotPrepared | ListingBroken | MultipleIdentical | EnvelopeMissing | EnvelopeNotSaved
    | ContextNotReady | ContextConflict | ContextFailed | ContextBroken | BindingMismatch
    | FactoryFailed | PostingUrlInvalid | BundleChanged | RecordNotSaved | RecordBroken

  datatype Consulted = ProfileProvider | PolicyProvider | Factory

  const ALL: seq<Consulted> := [ProfileProvider, PolicyProvider, Factory]

  datatype Loaded = Ready(context: ContextRef) | NotLoaded(failure: Failure)

  /** `load_application_assembly_execution_context`. */
  function LoadContext(v: Vault, p: Preparation, c: ContextRef, profile: ProfileRead, policy: PolicyRead): (r: (Loaded, seq<Consulted>))
    ensures r.1 in {[ProfileProvider], [ProfileProvider, PolicyProvider]}
    ensures r.0.NotLoaded? ==> r.0.failure in {ContextNotReady, ContextConflict, ContextFailed, ContextBroken}
    ensures r.0.Ready? ==>
      && r.0.context.profile == c.profile && r.0.context.profileVersion == PROFILE_VERSION
      && r.0.context.policy == c.policy && r.0.context.policyVersion == POLICY_VERSION
      && r.0.context.binding == v.binding(p, r.0.context.(binding := ""))
    ensures r.0.Ready? <==>
      && profile == ProfileFound(p.subject, p.planId, p.jobId, c.profile, PROFILE_VERSION, true)
      && policy == PolicyFound(p.subject, p.planId, p.jobId, c.policy, POLICY_VERSION, true)
  {
    match profile
    case ProfileRaises => (NotLoaded(ContextFailed), [ProfileProvider])
    case ProfileNotFound => (NotLoaded(ContextNotReady), [ProfileProvider])
    case ProfileConflict => (NotLoaded(ContextConflict), [ProfileProvider])
    case ProfileBroken => (NotLoaded(ContextBroken), [ProfileProvider])
    case ProfileFound(subject, planId, jobId, ref, version, bound) =>
      if version != PROFILE_VERSION then (NotLoaded(ContextBroken), [ProfileProvider])
      else if subject != p.subject || planId != p.planId || jobId != p.jobId || ref != c.profile || !bound then
        (NotLoaded(ContextBroken), [ProfileProvider])
      else (LoadPolicy(v, p, c, policy), [ProfileProvider, PolicyProvider])
  }

  /** The second half of the loader, once the profile is accepted. */
  function LoadPolicy(v: Vault, p: Preparation, c: ContextRef, policy: PolicyRead): Loaded {
    match policy
    case PolicyRaises => NotLoaded(ContextFailed)
    case PolicyNotFound => NotLoaded(ContextNotReady)
    case PolicyConflict => NotLoaded(ContextConflict)
    case PolicyBroken => NotLoaded(ContextBroken)
    case PolicyFound(subject, planId, jobId, ref, version, bound) =>
      if version != POLICY_VERSION then NotLoaded(ContextBroken)
      else if subject != p.subject || planId != p.planId || jobId != p.jobId || ref != c.policy || !bound then
        NotLoaded(ContextBroken)
      else
        var context := ContextRef(c.profile, PROFILE_VERSION, ref, version, "");
        Ready(context.(binding := v.binding(p, context)))
  }

  datatype FactoryAnswer = FactoryRaises | Made(bundle: Bundle)

  datatype Write = WriteWorks | WriteFails

  /** One call: the command, the prepared inputs as read and validated, and how its
      surroundings answer it. */
  datatype Call = Call(
    wellFormed: bool, prep: Option<Preparation>, context: ContextRef, listable: bool, envelopeReadable: bool,
    profile: ProfileRead, policy: PolicyRead, factory: FactoryAnswer,
    recordWrite: Write, envelopeWrite: Write, now: int)
  {
    /** The call reaches the replay check. */
    predicate Reaches() {
      && wellFormed && context.profileVersion == PROFILE_VERSION && context.policyVersion == POLICY_VERSION
      && prep.Some?
    }
  }

  datatype Result =
    | Created(record: Record, bundle: Bundle)
    | Unchanged(record: Record, bundle: Bundle)
    | Failed(failure: Failure, retryable: bool)

  datatype Built = ToSave(content: Content) | NotBuilt(result: Result)

  /** Context and factory: the content of the new record, or a failure. */
  function Build(v: Vault, x: Call): (r: (Built, seq<Consulted>))
    requires x.Reaches()
    ensures r.0.ToSave? ==>
      && r.1 == ALL && x.factory.Made?
      && Keyed(r.0.content, x.prep.value, x.context)
      && r.0.content.bundle == x.factory.bundle && KeepsInputs(v, x.prep.value, x.context, x.factory.bundle)
    ensures r.0.NotBuilt? ==>
      r.0.result.Failed? && r.0.result.failure !in {ListingBroken, MultipleIdentical, EnvelopeMissing, EnvelopeNotSaved}
    ensures r.1 != []
  {
    var p := x.prep.value;
    var (loaded, consulted) := LoadContext(v, p, x.context, x.profile, x.policy);
    if loaded.NotLoaded? then (NotBuilt(Failed(loaded.failure, loaded.failure == ContextFailed)), consulted)
    else if loaded.context.binding != x.context.binding then (NotBuilt(Failed(BindingMismatch, false)), consulted)
    else if x.factory.FactoryRaises? then (NotBuilt(Failed(FactoryFailed, false)), ALL)
    else if v.url(p).None? then (NotBuilt(Failed(PostingUrlInvalid, false)), ALL)
    else if !KeepsInputs(v, p, loaded.context, x.factory.bundle) then (NotBuilt(Failed(BundleChanged, false)), ALL)
    else (ToSave(Content(V2, p, loaded.context, x.factory.bundle)), ALL)
  }

  /** The files: a crash in the middle of writing one leaves it torn. */
  datatype Repo = Repo(records: map<Content, File<Record>>, envelopes: map<Content, File<Envelope>>) {
    /** Every record of the subject can be read; otherwise the listing fails. */
    predicate Intact(subject: string) {
      forall k :: k in records ==> k.prep.subject == subject ==> records[k].Full?
    }

    /** The records a replay has to consider. */
    function Matching(p: Preparation, c: ContextRef): (m: set<Content>)
      ensures forall k :: k in m <==> k in records && records[k].Full? && Keyed(k, p, c)
    {
      set k | k in records && records[k].Full? && Keyed(k, p, c)
    }

    /** The record can be read and its envelope recovers its bundle. */
    predicate Recoverable(k: Content) {
      k in records && records[k].Full? && k in envelopes && envelopes[k] == Full(EnvelopeOf(records[k].content))
    }
  }

  /** Nothing stored is ever removed or changed. */
  ghost predicate Grows(a: Repo, b: Repo) {
    && (forall k :: k in a.records ==> k in b.records && b.records[k] == a.records[k])
    && (forall k :: k in a.envelopes ==> k in b.envelopes && b.envelopes[k] == a.envelopes[k])
  }

  /** How far a call has come. */
  datatype Progress =
    | Start
    | Matched(key: Content)                            // listed: one record of this preparation and context
    | Absent                                           // listed: none
    | Recorded(key: Content)                           // its record was created, the envelope is next
    | Kept(key: Content)                               // the same record was created by another call
    | Ended(result: Result, consulted: seq<Consulted>)
    | Dead

  /** The listing succeeds. */
  predicate Lists(x: Call, repo: Repo) {
    x.Reaches() && x.listable && repo.Intact(x.prep.value.subject)
  }

  /** The call finds a readable repository without a record for it. */
  predicate Fresh(x: Call, repo: Repo) {
    Lists(x, repo) && repo.Matching(x.prep.value, x.context) == {}
  }

  /** The listing and the replay decision, before any provider or the factory is consulted. */
  ghost function List(x: Call, repo: Repo): (q: Progress)
    ensures q == Absent <==> Fresh(x, repo)
    ensures q.Matched? <==> Lists(x, repo) && exists k :: repo.Matching(x.prep.value, x.context) == {k}
    ensures q.Matched? ==> repo.Matching(x.prep.value, x.context) == {q.key}
    ensures !q.Absent? && !q.Matched? ==> q.Ended? && q.consulted == [] && q.result.Failed? && !q.result.retryable
  {
    if !x.Reaches() then Ended(Failed(if x.wellFormed then NotPrepared else InvalidRequest, false), [])
    else if !Lists(x, repo) then Ended(Failed(ListingBroken, false), [])
    else
      var found := repo.Matching(x.prep.value, x.context);
      if found == {} then Absent
      else if exists k :: found == {k} then
        var k :| found == {k};
        Matched(k)
      else Ended(Failed(MultipleIdentical, false), [])
  }

  /** The look at the envelope of an existing record. */
  function Recover(x: Call, repo: Repo, k: Content): Result {
    if x.envelopeReadable && repo.Recoverable(k) then Unchanged(repo.records[k].content, repo.envelopes[k].content.bundle)
    else Failed(EnvelopeMissing, false)
  }

  /** What a call that found no record will save, if context and factory let it. */
  function Saves(v: Vault, x: Call): Option<Content> {
    if x.Reaches() && Build(v, x).0.ToSave? then Some(Build(v, x).0.content) else None
  }

  /** Context, factory and the write of the record. */
  function RecordStep(v: Vault, x: Call, repo: Repo): (Repo, Progress)
    requires x.Reaches()
  {
    var (built, consulted) := Build(v, x);
    if built.NotBuilt? then (repo, Ended(built.result, consulted))
    else if x.recordWrite.WriteFails? then (repo, Ended(Failed(RecordNotSaved, true), consulted))
    else
      var k := built.content;
      if k !in repo.records then (repo.(records := repo.records[k := Full(Record(k, x.now))]), Recorded(k))
      else if repo.records[k].Torn? then (repo, Ended(Failed(RecordBroken, false), consulted))
      else (repo, Kept(k))
  }

  /** The write of the envelope behind a record that this call created. */
  function EnvelopeStep(x: Call, repo: Repo, k: Content): (Repo, Progress) {
    var record := Record(k, x.now);
    if x.envelopeWrite.WriteFails? then (repo, Ended(Failed(EnvelopeNotSaved, true), ALL))
    else if k !in repo.envelopes then
      (repo.(envelopes := repo.envelopes[k := Full(EnvelopeOf(record))]), Ended(Created(record, k.bundle), ALL))
    else if repo.envelopes[k] == Full(EnvelopeOf(record)) then (repo, Ended(Created(record, k.bundle), ALL))
    else (repo, Ended(Failed(EnvelopeNotSaved, true), ALL))
  }

  /** One step of one call. */
  ghost function Step(v: Vault, x: Call, repo: Repo, q: Progress): (Repo, Progress) {
    match q
    case Start => (repo, List(x, repo))
    case Matched(k) => (repo, Ended(Recover(x, repo, k), []))
    case Absent => if x.Reaches() then RecordStep(v, x, repo) else (repo, q)
    case Recorded(k) => EnvelopeStep(x, repo, k)
    case Kept(k) => (repo, Ended(Recover(x, repo, k), ALL))
    case Ended(_, _) => (repo, q)
    case Dead => (repo, q)
  }

  /** What the process leaves behind when it dies in the middle of the next write. */
  function Tear(v: Vault, x: Call, repo: Repo, q: Progress): Repo {
    match q
    case Absent =>
      if Saves(v, x).Some? && x.recordWrite.WriteWorks? && Saves(v, x).value !in repo.records then
        repo.(records := repo.records[Saves(v, x).value := Torn])
      else repo
    case Recorded(k) =>
      if x.envelopeWrite.WriteWorks? && k !in repo.envelopes then repo.(envelopes := repo.envelopes[k := Torn]) else repo
    case _ => repo
  }

  /** One entry of a schedule: a call takes a step, dies before it, or dies in its write. */
  datatype Move = Go(i: nat) | Die(i: nat) | DieWriting(i: nat)

  datatype State = State(repo: Repo, calls: seq<Progress>)

  ghost function Next(v: Vault, calls: seq<Call>, s: State, m: Move): (t: State)
    requires |s.calls| == |calls|
    ensures |t.calls| == |calls|
  {
    if m.i >= |calls| then s
    else
      var x, q := calls[m.i], s.calls[m.i];
      match m
      case Go(i) => var (repo, r) := Step(v, x, s.repo, q); State(repo, s.calls[i := r])
      case Die(i) => s.(calls := s.calls[i := if q.Ended? then q else Dead])
      case DieWriting(i) => State(Tear(v, x, s.repo, q), s.calls[i := if q.Ended? then q else Dead])
  }

  /** The state after any interleaving of the calls, with crashes anywhere. */
  ghost function After(v: Vault, calls: seq<Call>, s: State, moves: seq<Move>): (t: State)
    requires |s.calls| == |calls|
    ensures |t.calls| == |calls|
  {
    if moves == [] then s else Next(v, calls, After(v, calls, s, moves[..|moves| - 1]), moves[|moves| - 1])
  }

  /** No call has begun. */
  ghost function Begin(calls: seq<Call>, repo: Repo): (s: State)
    ensures |s.calls| == |calls|
  {
    State(repo, seq(|calls|, _ => Start))
  }

  /** The state a schedule leads to from `start`. */
  ghost function Run(v: Vault, calls: seq<Call>, start: Repo, moves: seq<Move>): (s: State)
    ensures |s.calls| == |calls|
  {
    After(v, calls, Begin(calls, start), moves)
  }

  predicate SameKey(a: Content, b: Content) {
    a.version == V2 && b.version == V2 && a.prep == b.prep && a.context == b.context
  }

  /** At most one version-2 record per preparation and context, readable or torn. */
  ghost predicate Unique(repo: Repo) {
    forall a, b :: a in repo.records && b in repo.records && SameKey(a, b) ==> a == b
  }

  /** The call would save a record if it ran alone. */
  ghost predicate CanSave(v: Vault, x: Call, repo: Repo) {
    Fresh(x, repo) && Saves(v, x).Some? && x.recordWrite.WriteWorks?
  }

  /** Calls of one preparation and context that can save have factories of one mind. */
  ghost predicate OneTier(v: Vault, calls: seq<Call>, repo: Repo) {
    forall i, j :: 0 <= i < |calls| && 0 <= j < |calls| && CanSave(v, calls[i], repo) && CanSave(v, calls[j], repo) ==>
      Twins(calls[i], calls[j]) ==> calls[i].factory.bundle.job.tier == calls[j].factory.bundle.job.tier
  }

  /** Two calls for one preparation and context. */
  predicate Twins(x: Call, y: Call) {
    x.prep == y.prep && x.context == y.context
  }

  lemma CanSaveKeyed(v: Vault, x: Call, repo: Repo)
    requires CanSave(v, x, repo)
    ensures x.factory.Made? && Keyed(Saves(v, x).value, x.prep.value, x.context) && Saves(v, x).value !in repo.records
    ensures forall k :: k in repo.records ==> !SameKey(k, Saves(v, x).value)
  {
    forall k | k in repo.records ensures !SameKey(k, Saves(v, x).value) {
      assert k !in repo.Matching(x.prep.value, x.context);
    }
  }

  /** What every schedule keeps: old files stay, new records come from calls that could save
      at the beginning, and a call that saw no record was one of them. */
  ghost predicate Reached(v: Vault, calls: seq<Call>, start: Repo, s: State) {
    && |s.calls| == |calls|
    && Grows(start, s.repo)
    && (forall k :: k in s.repo.records ==> k in start.records || exists i :: SavedBy(v, calls, start, k, i))
    && (forall i :: 0 <= i < |calls| && s.calls[i].Absent? ==> Fresh(calls[i], start))
  }

  ghost predicate SavedBy(v: Vault, calls: seq<Call>, start: Repo, k: Content, i: int) {
    0 <= i < |calls| && CanSave(v, calls[i], start) && Saves(v, calls[i]).value == k
  }

  lemma FreshBefore(x: Call, a: Repo, b: Repo)
    requires Grows(a, b) && Fresh(x, b)
    ensures Fresh(x, a)
  {
    assert a.Matching(x.prep.value, x.context) <= b.Matching(x.prep.value, x.context);
  }

  /** One step only adds files: the record this call saves, or the envelope behind it. */
  lemma StepAdds(v: Vault, x: Call, repo: Repo, q: Progress)
    ensures var next := Step(v, x, repo, q);
            && Grows(repo, next.0) && (next.1 == Absent ==> q == Absent || Fresh(x, repo))
            && forall k :: k in next.0.records && k !in repo.records ==> q == Absent && Writes(v, x, k)
  {
  }

  lemma TearAdds(v: Vault, x: Call, repo: Repo, q: Progress)
    ensures Grows(repo, Tear(v, x, repo, q))
    ensures forall k :: k in Tear(v, x, repo, q).records && k !in repo.records ==> q == Absent && Writes(v, x, k)
  {
  }

  predicate Writes(v: Vault, x: Call, k: Content) {
    Saves(v, x) == Some(k) && x.recordWrite.WriteWorks?
  }

  lemma NextReached(v: Vault, calls: seq<Call>, start: Repo, s: State, m: Move)
    requires Reached(v, calls, start, s)
    ensures Reached(v, calls, start, Next(v, calls, s, m)) && Grows(s.repo, Next(v, calls, s, m).repo)
  {
    if m.i < |calls| {
      var t := Next(v, calls, s, m);
      var x, q := calls[m.i], s.calls[m.i];
      StepAdds(v, x, s.repo, q);
      TearAdds(v, x, s.repo, q);
      if Fresh(x, s.repo) {
        FreshBefore(x, start, s.repo);
      }
      forall k | k in t.repo.records && k !in start.records ensures exists i :: SavedBy(v, calls, start, k, i) {
        if k !in s.repo.records {
          assert SavedBy(v, calls, start, k, m.i);
        }
      }
    }
  }

  lemma {:induction false} AfterReached(v: Vault, calls: seq<Call>, start: Repo, moves: seq<Move>)
    ensures Reached(v, calls, start, Run(v, calls, start, moves))
  {
    if moves != [] {
      AfterReached(v, calls, start, moves[..|moves| - 1]);
      NextReached(v, calls, start, Run(v, calls, start, moves[..|moves| - 1]), moves[|moves| - 1]);
    }
  }

  lemma ReachedUnique(v: Vault, calls: seq<Call>, start: Repo, s: State)
    requires Reached(v, calls, start, s) && Unique(start) && OneTier(v, calls, start)
    ensures Unique(s.repo)
  {
    forall a, b | a in s.repo.records && b in s.repo.records && SameKey(a, b) ensures a == b {
      if a !in start.records {
        var i :| SavedBy(v, calls, start, a, i);
        NewIsAlone(v, calls, start, s, a, b, i);
      } else if b !in start.records {
        var j :| SavedBy(v, calls, start, b, j);
        NewIsAlone(v, calls, start, s, b, a, j);
      }
    }
  }

  /** A new record shares its key with no old one, and equals every new one of its key. */
  lemma NewIsAlone(v: Vault, calls: seq<Call>, start: Repo, s: State, a: Content, b: Content, i: int)
    requires Reached(v, calls, start, s) && OneTier(v, calls, start)
    requires SavedBy(v, calls, start, a, i) && b in s.repo.records && SameKey(a, b)
    ensures a == b
  {
    CanSaveKeyed(v, calls[i], start);
    var j :| SavedBy(v, calls, start, b, j);
    CanSaveKeyed(v, calls[j], start);
    TierDecidesBundle(v, a.prep, a.context, a.bundle, b.bundle);
  }

  /** Two overlapping calls that differ in the tier leave two records: both list before
      either saves. */
  lemma TwoRecords(v: Vault, calls: seq<Call>, start: Repo, i: nat, j: nat)
    requires i < |calls| && j < |calls| && CanSave(v, calls[i], start) && CanSave(v, calls[j], start)
    requires Twins(calls[i], calls[j])
    requires calls[i].factory.bundle.job.tier != calls[j].factory.bundle.job.tier
    ensures !Unique(Run(v, calls, start, [Go(i), Go(j), Go(i), Go(j)]).repo)
  {
    var a, b := Saves(v, calls[i]).value, Saves(v, calls[j]).value;
    CanSaveKeyed(v, calls[i], start);
    CanSaveKeyed(v, calls[j], start);
    var s0 := Begin(calls, start);
    var s1 := Next(v, calls, s0, Go(i));
    var s2 := Next(v, calls, s1, Go(j));
    assert s2 == State(start, s0.calls[i := Absent][j := Absent]);
    var s3 := Next(v, calls, s2, Go(i));
    assert a in s3.repo.records && s3.calls[j] == Absent && b !in s3.repo.records;
    var s4 := Next(v, calls, s3, Go(j));
    assert a in s4.repo.records && b in s4.repo.records && SameKey(a, b) && a != b;
    FourMoves(v, calls, s0, Go(i), Go(j), Go(i), Go(j));
  }

  /** Two such calls: their factories agree on everything but the tier. */
  function ExampleVault(): Vault {
    Vault(_ => Some("https://jobs.example/1"), _ => "Acme", _ => "Engineer", _ => "materials", _ => "answers",
          _ => "profile", _ => "policy", (_, _) => "binding")
  }

  function ExampleCall(tier: Tier): Call {
    var e := Entry("id", "hash");
    var p := Preparation("subject", "plan", "job", 1, "posting", e, e, e, e);
    var c := ContextRef(e, PROFILE_VERSION, e, POLICY_VERSION, "binding");
    var job := JobSpec("job", "https://jobs.example/1", "Acme", "Engineer", tier);
    Call(true, Some(p), c, true, true,
         ProfileFound("subject", "plan", "job", e, PROFILE_VERSION, true),
         PolicyFound("subject", "plan", "job", e, POLICY_VERSION, true),
         Made(Bundle(RunOf(p, c), job, "materials", "profile", "answers", "policy")), WriteWorks, WriteWorks, 0)
  }

  lemma ExampleSplits()
    ensures !Unique(Run(ExampleVault(), [ExampleCall(High), ExampleCall(Low)], Repo(map[], map[]), [Go(0), Go(1), Go(0), Go(1)]).repo)
  {
    var v, empty := ExampleVault(), Repo(map[], map[]);
    ExampleCanSave(High, empty);
    ExampleCanSave(Low, empty);
    TwoRecords(v, [ExampleCall(High), ExampleCall(Low)], empty, 0, 1);
  }

  lemma ExampleCanSave(tier: Tier, empty: Repo)
    requires empty == Repo(map[], map[])
    ensures CanSave(ExampleVault(), ExampleCall(tier), empty)
  {
    var x := ExampleCall(tier);
    assert empty.Matching(x.prep.value, x.context) == {};
    assert KeepsInputs(ExampleVault(), x.prep.value, x.context, x.factory.bundle);
  }

  lemma FourMoves(v: Vault, calls: seq<Call>, s: State, a: Move, b: Move, c: Move, d: Move)
    requires |s.calls| == |calls|
    ensures After(v, calls, s, [a, b, c, d]) == Next(v, calls, Next(v, calls, Next(v, calls, Next(v, calls, s, a), b), c), d)
  {
    assert [a, b, c, d][..3] == [a, b, c] && [a, b, c][..2] == [a, b] && [a, b][..1] == [a] && [a][..0] == [];
    assert After(v, calls, s, []) == s;
    assert After(v, calls, s, [a]) == Next(v, calls, s, a);
    assert After(v, calls, s, [a, b]) == Next(v, calls, Next(v, calls, s, a), b);
  }

  lemma AgreeingStaysUnique(v: Vault, calls: seq<Call>, start: Repo, moves: seq<Move>)
    requires Unique(start) && OneTier(v, calls, start)
    ensures Unique(Run(v, calls, start, moves).repo)
  {
    AfterReached(v, calls, start, moves);
    ReachedUnique(v, calls, start, Run(v, calls, start, moves));
  }

  lemma DisagreeingSplits(v: Vault, calls: seq<Call>, start: Repo) returns (moves: seq<Move>)
    requires !OneTier(v, calls, start)
    ensures !Unique(Run(v, calls, start, moves).repo)
  {
    var i, j :| 0 <= i < |calls| && 0 <= j < |calls| && CanSave(v, calls[i], start) && CanSave(v, calls[j], start)
      && Twins(calls[i], calls[j]) && calls[i].factory.bundle.job.tier != calls[j].factory.bundle.job.tier;
    TwoRecords(v, calls, start, i, j);
    moves := [Go(i), Go(j), Go(i), Go(j)];
  }

  /** Over all interleavings and crashes the repository keeps one record per preparation and
      context exactly when it had one to begin with and the calls that can save agree on the
      tier of the job. */
  lemma UniqueIff(v: Vault, calls: seq<Call>, start: Repo)
    ensures (forall moves :: Unique(Run(v, calls, start, moves).repo))
            <==> Unique(start) && OneTier(v, calls, start)
  {
    if !OneTier(v, calls, start) {
      var moves := DisagreeingSplits(v, calls, start);
    } else if Unique(start) {
      forall moves ensures Unique(Run(v, calls, start, moves).repo) {
        AgreeingStaysUnique(v, calls, start, moves);
      }
    } else {
      var none: seq<Move> := [];
      assert !Unique(Run(v, calls, start, none).repo);
    }
  }

  /** What a call that created a record, or has still to write its envelope, finds stored. */
  ghost predicate Placed(x: Call, repo: Repo, q: Progress) {
    match q
    case Recorded(k) =>
      x.Reaches() && Keyed(k, x.prep.value, x.context) && k in repo.records && repo.records[k] == Full(Record(k, x.now))
    case Ended(Created(r, bundle), _) =>
      && x.Reaches() && Keyed(r.content, x.prep.value, x.context) && bundle == r.content.bundle
      && repo.Recoverable(r.content) && repo.records[r.content] == Full(r)
    case _ => true
  }

  lemma StepPlaced(v: Vault, x: Call, repo: Repo, q: Progress)
    requires Placed(x, repo, q)
    ensures Placed(x, Step(v, x, repo, q).0, Step(v, x, repo, q).1)
  {
  }

  ghost predicate AllPlaced(calls: seq<Call>, s: State)
    requires |s.calls| == |calls|
  {
    forall i :: 0 <= i < |calls| ==> Placed(calls[i], s.repo, s.calls[i])
  }

  lemma NextPlaced(v: Vault, calls: seq<Call>, s: State, m: Move)
    requires |s.calls| == |calls| && AllPlaced(calls, s)
    ensures AllPlaced(calls, Next(v, calls, s, m)) && Grows(s.repo, Next(v, calls, s, m).repo)
  {
    if m.i < |calls| {
      StepPlaced(v, calls[m.i], s.repo, s.calls[m.i]);
      StepAdds(v, calls[m.i], s.repo, s.calls[m.i]);
      TearAdds(v, calls[m.i], s.repo, s.calls[m.i]);
    }
  }

  lemma {:induction false} RunPlaced(v: Vault, calls: seq<Call>, start: Repo, moves: seq<Move>)
    ensures AllPlaced(calls, Run(v, calls, start, moves))
  {
    if moves != [] {
      RunPlaced(v, calls, start, moves[..|moves| - 1]);
      NextPlaced(v, calls, Run(v, calls, start, moves[..|moves| - 1]), moves[|moves| - 1]);
    }
  }

  /** A call that has not listed yet ends with this result and consults nothing, unless it
      dies or the listing fails on a torn record. */
  ghost predicate Fate(x: Call, repo: Repo, k: Content, result: Result, q: Progress) {
    || q == Start || q == Dead || q == Matched(k) || q == Ended(result, [])
    || (q == Ended(Failed(ListingBroken, false), []) && !Lists(x, repo))
  }

  /** The one readable record for this call. */
  ghost predicate Stands(x: Call, repo: Repo, k: Content) {
    x.Reaches() && Keyed(k, x.prep.value, x.context) && k in repo.records && repo.records[k].Full?
  }

  lemma StandsAlone(x: Call, repo: Repo, k: Content)
    requires Stands(x, repo, k) && Unique(repo)
    ensures repo.Matching(x.prep.value, x.context) == {k}
  {
  }

  /** The decision about a later call stays the same while others go on. */
  lemma NextFate(v: Vault, calls: seq<Call>, s: State, m: Move, j: nat, k: Content, result: Result)
    requires |s.calls| == |calls| && j < |calls| && Unique(s.repo) && Stands(calls[j], s.repo, k)
    requires Fate(calls[j], s.repo, k, result, s.calls[j]) && Recover(calls[j], s.repo, k) == result
    ensures Fate(calls[j], Next(v, calls, s, m).repo, k, result, Next(v, calls, s, m).calls[j])
  {
    if m.i < |calls| {
      StepAdds(v, calls[m.i], s.repo, s.calls[m.i]);
      TearAdds(v, calls[m.i], s.repo, s.calls[m.i]);
      if m == Go(j) {
        StandsAlone(calls[j], s.repo, k);
        StepFate(v, calls[j], s.repo, s.calls[j], k, result);
      }
      FateKept(calls[j], s.repo, Next(v, calls, s, m).repo, s.calls[j], k, result);
    }
  }

  lemma StepFate(v: Vault, x: Call, repo: Repo, q: Progress, k: Content, result: Result)
    requires x.Reaches() && repo.Matching(x.prep.value, x.context) == {k}
    requires Fate(x, repo, k, result, q) && Recover(x, repo, k) == result
    ensures Step(v, x, repo, q).0 == repo && Fate(x, repo, k, result, Step(v, x, repo, q).1)
  {
  }

  lemma FateKept(x: Call, repo: Repo, later: Repo, q: Progress, k: Content, result: Result)
    requires Grows(repo, later) && Fate(x, repo, k, result, q)
    ensures Fate(x, later, k, result, q)
  {
  }

  lemma RunOn(v: Vault, calls: seq<Call>, start: Repo, before: seq<Move>, after: seq<Move>)
    requires after != []
    ensures Run(v, calls, start, before + after)
            == Next(v, calls, Run(v, calls, start, before + after[..|after| - 1]), after[|after| - 1])
  {
    var all := before + after;
    assert all[..|all| - 1] == before + after[..|after| - 1] && all[|all| - 1] == after[|after| - 1];
  }

  /** Once a call has returned CREATED, every twin that begins afterwards ends UNCHANGED with
      that record and bundle and consults neither the providers nor the factory, however the
      remaining calls interleave and die. */
  lemma {:induction false} CreatedReplays(
      v: Vault, calls: seq<Call>, start: Repo, before: seq<Move>, after: seq<Move>, i: nat, j: nat)
    requires Unique(start) && OneTier(v, calls, start)
    requires i < |calls| && j < |calls| && Twins(calls[i], calls[j]) && calls[j].Reaches()
    requires var s := Run(v, calls, start, before);
             s.calls[j] == Start && s.calls[i].Ended? && s.calls[i].result.Created?
    ensures var r, t := Run(v, calls, start, before).calls[i].result.record, Run(v, calls, start, before + after);
            && Stands(calls[j], t.repo, r.content) && t.repo.Recoverable(r.content) && t.repo.records[r.content] == Full(r)
            && Fate(calls[j], t.repo, r.content,
                    if calls[j].envelopeReadable then Unchanged(r, r.content.bundle) else Failed(EnvelopeMissing, false),
                    t.calls[j])
  {
    if after == [] {
      RunPlaced(v, calls, start, before);
      assert before + after == before;
      assert Placed(calls[i], Run(v, calls, start, before).repo, Run(v, calls, start, before).calls[i]);
    } else {
      var shorter, r := before + after[..|after| - 1], Run(v, calls, start, before).calls[i].result.record;
      CreatedReplays(v, calls, start, before, after[..|after| - 1], i, j);
      RunOn(v, calls, start, before, after);
      RunPlaced(v, calls, start, shorter);
      AgreeingStaysUnique(v, calls, start, shorter);
      NextPlaced(v, calls, Run(v, calls, start, shorter), after[|after| - 1]);
      NextFate(v, calls, Run(v, calls, start, shorter), after[|after| - 1], j, r.content,
               if calls[j].envelopeReadable then Unchanged(r, r.content.bundle) else Failed(EnvelopeMissing, false));
    }
  }

  /** A readable record whose envelope is missing or torn, and that no call will complete. */
  ghost predicate Orphan(s: State, k: Content) {
    && k in s.repo.records && s.repo.records[k].Full? && !s.repo.Recoverable(k)
    && forall i :: 0 <= i < |s.calls| ==> s.calls[i] != Recorded(k)
  }

  lemma NextOrphan(v: Vault, calls: seq<Call>, s: State, m: Move, k: Content)
    requires |s.calls| == |calls| && Orphan(s, k)
    ensures Orphan(Next(v, calls, s, m), k)
  {
    if m.i < |calls| {
      var x, q := calls[m.i], s.calls[m.i];
      StepAdds(v, x, s.repo, q);
      TearAdds(v, x, s.repo, q);
      EnvelopeOnlyFromRecorded(v, x, s.repo, q, k);
    }
  }

  lemma EnvelopeOnlyFromRecorded(v: Vault, x: Call, repo: Repo, q: Progress, k: Content)
    requires q != Recorded(k)
    ensures var next := Step(v, x, repo, q).0; k in next.envelopes <==> k in repo.envelopes
    ensures var next := Step(v, x, repo, q).0; k in repo.envelopes ==> next.envelopes[k] == repo.envelopes[k]
    ensures k in Tear(v, x, repo, q).envelopes <==> k in repo.envelopes
    ensures k in repo.envelopes ==> Tear(v, x, repo, q).envelopes[k] == repo.envelopes[k]
    ensures k in repo.records ==> Step(v, x, repo, q).1 != Recorded(k)
  {
  }

  /** An orphaned record makes every call for it that begins afterwards fail for good: no
      retry, no other call and no schedule recovers it. */
  lemma {:induction false} OrphanFailsForGood(
      v: Vault, calls: seq<Call>, start: Repo, before: seq<Move>, after: seq<Move>, k: Content, j: nat)
    requires Unique(start) && OneTier(v, calls, start) && j < |calls|
    requires var s := Run(v, calls, start, before); Orphan(s, k) && s.calls[j] == Start && Stands(calls[j], s.repo, k)
    ensures var t := Run(v, calls, start, before + after);
            Orphan(t, k) && Fate(calls[j], t.repo, k, Failed(EnvelopeMissing, false), t.calls[j])
  {
    if after == [] {
      assert before + after == before;
    } else {
      var shorter, m := before + after[..|after| - 1], after[|after| - 1];
      OrphanFailsForGood(v, calls, start, before, after[..|after| - 1], k, j);
      RunOn(v, calls, start, before, after);
      AgreeingStaysUnique(v, calls, start, shorter);
      NextOrphan(v, calls, Run(v, calls, start, shorter), m, k);
      NextFate(v, calls, Run(v, calls, start, shorter), m, j, k, Failed(EnvelopeMissing, false));
    }
  }

  /** Only the creator of a record will write its envelope, and it has not done so yet. */
  ghost predicate Creators(s: State) {
    && s.repo.envelopes.Keys <= s.repo.records.Keys
    && (forall i, k :: 0 <= i < |s.calls| && s.calls[i] == Recorded(k) ==>
          k in s.repo.records && s.repo.records[k].Full? && k !in s.repo.envelopes)
    && (forall i, j :: 0 <= i < j < |s.calls| && s.calls[i].Recorded? && s.calls[j].Recorded? ==> s.calls[i].key != s.calls[j].key)
  }

  lemma NextCreators(v: Vault, calls: seq<Call>, s: State, m: Move)
    requires |s.calls| == |calls| && Creators(s)
    ensures Creators(Next(v, calls, s, m))
  {
    if m.i < |calls| {
      var x, q, t := calls[m.i], s.calls[m.i], Next(v, calls, s, m);
      StepAdds(v, x, s.repo, q);
      TearAdds(v, x, s.repo, q);
      StepCreates(v, x, s.repo, q);
    }
  }

  /** A step reaches `Recorded` only by creating the record; envelopes only follow records. */
  lemma StepCreates(v: Vault, x: Call, repo: Repo, q: Progress)
    ensures var (next, r) := Step(v, x, repo, q);
            && (r.Recorded? ==> q == Absent && next.envelopes == repo.envelopes)
            && (r.Recorded? ==> r.key !in repo.records && r.key in next.records && next.records[r.key].Full?)
            && (forall k :: k in next.envelopes ==> k in repo.envelopes || q == Recorded(k))
    ensures forall k :: k in Tear(v, x, repo, q).envelopes ==> k in repo.envelopes || q == Recorded(k)
  {
  }

  lemma {:induction false} RunCreators(v: Vault, calls: seq<Call>, start: Repo, moves: seq<Move>)
    requires start.envelopes.Keys <= start.records.Keys
    ensures Creators(Run(v, calls, start, moves))
  {
    if moves != [] {
      RunCreators(v, calls, start, moves[..|moves| - 1]);
      NextCreators(v, calls, Run(v, calls, start, moves[..|moves| - 1]), moves[|moves| - 1]);
    }
  }

  /** A call that has created its record succeeds exactly when it lives on and can write the
      envelope; otherwise it leaves the record orphaned. */
  lemma RecordedOrOrphaned(v: Vault, calls: seq<Call>, start: Repo, moves: seq<Move>, m: Move)
    requires start.envelopes.Keys <= start.records.Keys && m.i < |calls|
    requires Run(v, calls, start, moves).calls[m.i].Recorded?
    ensures var k, t := Run(v, calls, start, moves).calls[m.i].key, Next(v, calls, Run(v, calls, start, moves), m);
            && ((m.Go? && calls[m.i].envelopeWrite.WriteWorks?) <==> (t.calls[m.i].Ended? && t.calls[m.i].result.Created?))
            && (!(m.Go? && calls[m.i].envelopeWrite.WriteWorks?) <==> Orphan(t, k))
  {
    var s := Run(v, calls, start, moves);
    RunCreators(v, calls, start, moves);
    RunPlaced(v, calls, start, moves);
    NextPlaced(v, calls, s, m);
    assert Placed(calls[m.i], s.repo, s.calls[m.i]);
    assert Placed(calls[m.i], Next(v, calls, s, m).repo, Next(v, calls, s, m).calls[m.i]);
  }

  /** The same happens to a healthy call that runs between the record and the envelope of its
      twin: it fails for good, although the twin succeeds. */
  lemma HealthyTwinFails(v: Vault, calls: seq<Call>, start: Repo, i: nat, j: nat)
    requires i < |calls| && j < |calls| && i != j && CanSave(v, calls[i], start) && calls[i].envelopeWrite.WriteWorks?
    requires Twins(calls[i], calls[j]) && Lists(calls[j], start) && start.envelopes.Keys <= start.records.Keys
    ensures var t := Run(v, calls, start, [Go(i), Go(i), Go(j), Go(j), Go(i)]);
            && t.calls[i] == Ended(Created(Record(Saves(v, calls[i]).value, calls[i].now), Saves(v, calls[i]).value.bundle), ALL)
            && t.calls[j] == Ended(Failed(EnvelopeMissing, false), [])
  {
    var k := Saves(v, calls[i]).value;
    CanSaveKeyed(v, calls[i], start);
    var s0 := Begin(calls, start);
    var s1 := Next(v, calls, s0, Go(i));
    assert s1 == State(start, s0.calls[i := Absent]);
    var s2 := Next(v, calls, s1, Go(i));
    assert start.Matching(calls[j].prep.value, calls[j].context) == {};
    var repo := start.(records := start.records[k := Full(Record(k, calls[i].now))]);
    assert s2 == State(repo, s1.calls[i := Recorded(k)]);
    assert repo.Matching(calls[j].prep.value, calls[j].context) == {k};
    var s3 := Next(v, calls, s2, Go(j));
    assert s3 == State(repo, s2.calls[j := Matched(k)]);
    var s4 := Next(v, calls, s3, Go(j));
    assert s4 == State(repo, s3.calls[j := Ended(Failed(EnvelopeMissing, false), [])]);
    FifthMove(v, calls, s0, Go(i), Go(i), Go(j), Go(j), Go(i));
  }

  lemma FifthMove(v: Vault, calls: seq<Call>, s: State, a: Move, b: Move, c: Move, d: Move, e: Move)
    requires |s.calls| == |calls|
    ensures After(v, calls, s, [a, b, c, d, e])
            == Next(v, calls, Next(v, calls, Next(v, calls, Next(v, calls, Next(v, calls, s, a), b), c), d), e)
  {
    FourMoves(v, calls, s, a, b, c, d);
    assert [a, b, c, d, e][..4] == [a, b, c, d];
  }

  /** In such histories no call ever finds two records. */
  lemma {:induction false} NeverMultiple(v: Vault, calls: seq<Call>, start: Repo, moves: seq<Move>, i: nat)
    requires Unique(start) && OneTier(v, calls, start) && i < |calls|
    ensures var q := Run(v, calls, start, moves).calls[i]; q.Ended? ==> q.result != Failed(MultipleIdentical, false)
  {
    if moves != [] {
      var before, m := moves[..|moves| - 1], moves[|moves| - 1];
      NeverMultiple(v, calls, start, before, i);
      AgreeingStaysUnique(v, calls, start, before);
      var s := Run(v, calls, start, before);
      if m == Go(i) {
        StepNotMultiple(v, calls[i], s.repo, s.calls[i]);
      }
    }
  }

  lemma StepNotMultiple(v: Vault, x: Call, repo: Repo, q: Progress)
    requires Unique(repo) && (q.Ended? ==> q.result != Failed(MultipleIdentical, false))
    ensures var r := Step(v, x, repo, q).1; r.Ended? ==> r.result != Failed(MultipleIdentical, false)
  {
    if q.Start? && Lists(x, repo) && repo.Matching(x.prep.value, x.context) != {} {
      var k :| k in repo.Matching(x.prep.value, x.context);
      StandsAlone(x, repo, k);
    }
  }

  class AssemblyRepository {
    var records: map<Content, File<Record>>
    var envelopes: map<Content, File<Envelope>>

    function Files(): Repo
      reads this
    {
      Repo(records, envelopes)
    }

    constructor ()
      ensures Files() == Repo(map[], map[])
    {
      records, envelopes := map[], map[];
    }

    /** The listing and the replay decision. */
    method Replay(x: Call) returns (q: Progress)
      ensures q == List(x, Files())
    {
      if !x.Reaches() { return Ended(Failed(if x.wellFormed then NotPrepared else InvalidRequest, false), []); }
      if !Lists(x, Files()) { return Ended(Failed(ListingBroken, false), []); }
      var found := Files().Matching(x.prep.value, x.context);
      if found == {} { return Absent; }
      var k :| k in found;
      if found != {k} {
        assert forall c :: found == {c} ==> k == c;
        return Ended(Failed(MultipleIdentical, false), []);
      }
      return Matched(k);
    }

    /** Save the record of a call that found none. */
    method SaveRecord(v: Vault, x: Call) returns (q: Progress)
      requires x.Reaches()
      modifies this`records
      ensures (Files(), q) == RecordStep(v, x, old(Files()))
    {
      var (built, consulted) := Build(v, x);
      if built.NotBuilt? { return Ended(built.result, consulted); }
      if x.recordWrite.WriteFails? { return Ended(Failed(RecordNotSaved, true), consulted); }
      var k := built.content;
      if k in records {
        return if records[k].Torn? then Ended(Failed(RecordBroken, false), consulted) else Kept(k);
      }
      records := records[k := Full(Record(k, x.now))];
      return Recorded(k);
    }

    /** Save the envelope behind the record this call created. */
    method SaveEnvelope(x: Call, k: Content) returns (q: Progress)
      modifies this`envelopes
      ensures (Files(), q) == EnvelopeStep(x, old(Files()), k)
    {
      var record := Record(k, x.now);
      if x.envelopeWrite.WriteFails? || (k in envelopes && envelopes[k] != Full(EnvelopeOf(record))) {
        return Ended(Failed(EnvelopeNotSaved, true), ALL);
      }
      if k !in envelopes {
        envelopes := envelopes[k := Full(EnvelopeOf(record))];
      }
      return Ended(Created(record, k.bundle), ALL);
    }

    /** One step of one call. */
    method Advance(v: Vault, x: Call, q: Progress) returns (r: Progress)
      modifies this
      ensures (Files(), r) == Step(v, x, old(Files()), q)
    {
      match q
      case Start => r := Replay(x);
      case Matched(k) => r := Ended(Recover(x, Files(), k), []);
      case Absent => if x.Reaches() { r := SaveRecord(v, x); } else { r := q; }
      case Recorded(k) => r := SaveEnvelope(x, k);
      case Kept(k) => r := Ended(Recover(x, Files(), k), ALL);
      case Ended(_, _) => r := q;
      case Dead => r := q;
    }

    /** `assemble_application_bundle` without interruption: three steps end it.  It creates a
        record exactly when it found none and every write works; an existing record decides
        the answer before anything is consulted or stored. */
    method Assemble(v: Vault, x: Call) returns (r: Result, consulted: seq<Consulted>)
      requires envelopes.Keys <= records.Keys
      modifies this
      ensures Grows(old(Files()), Files()) && envelopes.Keys <= records.Keys
      ensures old(Unique(Files())) ==> Unique(Files()) && r != Failed(MultipleIdentical, false)
      ensures r.Created? <==> old(CanSave(v, x, Files())) && x.envelopeWrite.WriteWorks?
      ensures r.Created? ==> r.record.content == Saves(v, x).value && r.bundle == r.record.content.bundle
      ensures r.Created? ==> Files().Recoverable(r.record.content) && records[r.record.content] == Full(r.record)
      ensures forall k :: old(Stands(x, Files(), k) && Lists(x, Files()) && Unique(Files())) ==>
        consulted == [] && Files() == old(Files()) && r == Recover(x, Files(), k)
    {
      ghost var start := Files();
      var q := Advance(v, x, Start);
      if Unique(start) { StepNotMultiple(v, x, start, Start); }
      forall k | Stands(x, start, k) && Lists(x, start) && Unique(start) ensures q == Matched(k) {
        StandsAlone(x, start, k);
      }
      if q.Absent? {
        q := SaveFresh(v, x);
      } else if q.Matched? {
        q := Advance(v, x, q);
      }
      return q.result, q.consulted;
    }

    /** The rest of a call that found no record. */
    method SaveFresh(v: Vault, x: Call) returns (q: Progress)
      requires Fresh(x, Files()) && envelopes.Keys <= records.Keys
      modifies this
      ensures q.Ended? && q.result != Failed(MultipleIdentical, false)
      ensures Grows(old(Files()), Files()) && envelopes.Keys <= records.Keys
      ensures old(Unique(Files())) ==> Unique(Files())
      ensures q.result.Created? <==> old(CanSave(v, x, Files())) && x.envelopeWrite.WriteWorks?
      ensures q.result.Created? ==> Placed(x, Files(), q) && q.result.record.content == Saves(v, x).value
    {
      if CanSave(v, x, Files()) { CanSaveKeyed(v, x, Files()); }
      q := SaveRecord(v, x);
      if q.Recorded? {
        q := SaveEnvelope(x, q.key);
      }
    }

    /** Any schedule of any calls, with crashes: the repository keeps one record per
        preparation and context if the calls that can save agree on the tier. */
    method AssembleAll(v: Vault, calls: seq<Call>, moves: seq<Move>) returns (progress: seq<Progress>)
      modifies this
      ensures |progress| == |calls|
      ensures State(Files(), progress) == Run(v, calls, old(Files()), moves)
      ensures Grows(old(Files()), Files())
      ensures old(Unique(Files()) && OneTier(v, calls, Files())) ==>
        Unique(Files()) && forall i :: 0 <= i < |calls| && progress[i].Ended? ==> progress[i].result != Failed(MultipleIdentical, false)
    {
      ghost var start := Files();
      progress := seq(|calls|, _ => Start);
      for n := 0 to |moves|
        invariant |progress| == |calls| && State(Files(), progress) == Run(v, calls, start, moves[..n])
      {
        assert moves[..n + 1][..n] == moves[..n];
        progress := Carry(v, calls, progress, moves[n]);
      }
      assert moves[..|moves|] == moves;
      AfterReached(v, calls, start, moves);
      if Unique(start) && OneTier(v, calls, start) {
        AgreeingStaysUnique(v, calls, start, moves);
        forall i | 0 <= i < |calls| && progress[i].Ended? ensures progress[i].result != Failed(MultipleIdentical, false) {
          NeverMultiple(v, calls, start, moves, i);
        }
      }
    }

    /** One entry of a schedule. */
    method Carry(v: Vault, calls: seq<Call>, progress: seq<Progress>, m: Move) returns (after: seq<Progress>)
      requires |progress| == |calls|
      modifies this
      ensures State(Files(), after) == Next(v, calls, State(old(Files()), progress), m)
    {
      if m.i >= |calls| { return progress; }
      var x, q := calls[m.i], progress[m.i];
      match m {
        case Go(i) =>
          q := Advance(v, x, q);
        case Die(i) =>
          q := if q.Ended? then q else Dead;
        case DieWriting(i) =>
          var torn := Tear(v, x, Files(), q);
          records, envelopes := torn.records, torn.envelopes;
          q := if q.Ended? then q else Dead;
      }
      return progress[m.i := q];
    }
  }
}
