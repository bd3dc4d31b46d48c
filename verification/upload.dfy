/** Document upload planning (adapters/document_upload.py): which file control of a form gets
    which verified PDF, fail-closed. */
module Upload {
  import opened Common

  datatype Role = ResumeRole | CoverRole

  const ROLES: seq<Role> := [ResumeRole, CoverRole]

  /** A file control; `role` is absent for keys that are no document material. */
  datatype Control = Control(id: string, role: Option<Role>, required: bool)

  /** A path inside the private home, by its parts.  None of them goes up: the constructor of a
      managed artifact refuses such a reference, and the resume's is made from its resolved
      path. */
  type Reference = r: seq<string> | ".." !in r witness []

  datatype Artifact = Artifact(reference: Reference, sha: string, size: Option<nat>)

  datatype Content = Content(sha: Digest, size: nat, pdf: bool)

  /** The materials of a bundle; the resume is absent when its path leaves the private home. */
  datatype Materials = Materials(resume: Option<Reference>, resumeSha: string, cover: Option<Artifact>)

  predicate SubjectKey(part: string) {
    "subject-" <= part && IsDigest(part[8..])
  }

  function SubjectKeys(r: seq<string>): seq<string> {
    if r == [] then []
    else SubjectKeys(r[..|r| - 1]) + if SubjectKey(r[|r| - 1]) then [r[|r| - 1]] else []
  }

  predicate Managed(r: Reference) {
    |r| >= 2 && r[0] == "state" && r[1] == "preparation" && |SubjectKeys(r)| == 1
  }

  /** `_verified_pdf`: the file's bytes are a PDF with the expected hash and size. */
  predicate Verified(a: Artifact, read: Reference -> Option<Content>) {
    && Managed(a.reference)
    && read(a.reference).Some?
    && var c := read(a.reference).value;
      c.pdf && c.sha == a.sha && (a.size.Some? ==> c.size == a.size.value) && c.size >= 1
  }

  datatype Item = Item(control: string, role: Role, artifact: Artifact, size: nat)

  datatype Failure = MaterialMissing | Ambiguous | Integrity | UnsupportedControl

  /** `Raised` is the item constructor refusing an empty control identifier. */
  datatype Result = Ready(items: seq<Item>, skipped: seq<string>) | Failed(failure: Failure) | Raised

  function Ids(controls: seq<Control>): seq<string> {
    seq(|controls|, i requires 0 <= i < |controls| => controls[i].id)
  }

  /** The controls of a role among the first `n`, in form order. */
  function OfFirst(controls: seq<Control>, n: nat, role: Role): (r: seq<Control>)
    requires n <= |controls|
    ensures forall c :: c in r ==> c in controls && c.role == Some(role)
    ensures forall k :: 0 <= k < n && controls[k].role == Some(role) ==> controls[k] in r
  {
    if n == 0 then []
    else OfFirst(controls, n - 1, role) + if controls[n - 1].role == Some(role) then [controls[n - 1]] else []
  }

  /** The controls of a role. */
  function Of(controls: seq<Control>, role: Role): (r: seq<Control>)
    ensures forall c :: c in r <==> c in controls && c.role == Some(role)
  {
    OfFirst(controls, |controls|, role)
  }

  /** What is uploaded for a role, when there is something. */
  function ArtifactFor(m: Materials, role: Role): Option<Artifact> {
    match role
    case ResumeRole => if m.resume.Some? then Some(Artifact(m.resume.value, m.resumeSha, None)) else None
    case CoverRole => m.cover
  }

  /** The first control of a role is served, or left out because there is no cover letter. */
  predicate Served(controls: seq<Control>, m: Materials, read: Reference -> Option<Content>, role: Role) {
    var fields := Of(controls, role);
    fields != [] ==>
      match ArtifactFor(m, role)
      case Some(a) => Verified(a, read) && fields[0].id != ""
      case None => role == CoverRole && !fields[0].required
  }

  predicate HasItem(controls: seq<Control>, m: Materials, role: Role) {
    Of(controls, role) != [] && ArtifactFor(m, role).Some?
  }

  /** When an upload plan exists, said about the form and the materials alone. */
  ghost predicate Plannable(controls: seq<Control>, m: Materials, read: Reference -> Option<Content>) {
    && (forall i, j :: 0 <= i < j < |controls| ==> controls[i].id != controls[j].id)
    && (forall c :: c in controls && c.role.None? ==> !c.required)
    && (forall role :: |Of(controls, role)| > 1 ==> forall c :: c in Of(controls, role) ==> !c.required)
    && (forall role :: Served(controls, m, read, role))
    && (HasItem(controls, m, ResumeRole) && HasItem(controls, m, CoverRole) ==>
          SubjectKeys(ArtifactFor(m, ResumeRole).value.reference) == SubjectKeys(ArtifactFor(m, CoverRole).value.reference))
  }

  /** An item uploads the verified artifact of its role to the role's first control. */
  ghost predicate GoodItem(x: Item, controls: seq<Control>, m: Materials, read: Reference -> Option<Content>) {
    && Of(controls, x.role) != [] && x.control == Of(controls, x.role)[0].id
    && ArtifactFor(m, x.role) == Some(x.artifact) && Verified(x.artifact, read)
    && x.size == read(x.artifact.reference).value.size
  }

  /** The checks of the item's constructor. */
  predicate ItemValid(x: Item) {
    && x.control != "" && IsDigest(x.artifact.sha) && x.size >= 1
    && Managed(x.artifact.reference) && x.artifact.reference[0] != "/" && ".." !in x.artifact.reference
  }

  /** The checks of the plan's and the items' constructors. */
  ghost predicate PlanValid(items: seq<Item>, skipped: seq<string>) {
    && (forall i, j :: 0 <= i < j < |items| ==> items[i].control != items[j].control && items[i].role != items[j].role)
    && (forall i :: 0 <= i < |items| ==> items[i].control !in skipped)
    && (forall i :: 0 <= i < |items| ==> ItemValid(items[i]))
  }

  predicate OneSubject(items: seq<Item>) {
    forall i, j :: 0 <= i < |items| && 0 <= j < |items| ==>
      SubjectKeys(items[i].artifact.reference) == SubjectKeys(items[j].artifact.reference)
  }

  predicate ItemFor(items: seq<Item>, id: string) {
    exists i :: 0 <= i < |items| && items[i].control == id
  }

  /** The identifier occurs among the first `n` controls. */
  predicate Seen(controls: seq<Control>, n: nat, id: string)
    requires n <= |controls|
  {
    exists k :: 0 <= k < n && controls[k].id == id
  }

  /** It occurs there on a control that holds no document material. */
  predicate Foreign(controls: seq<Control>, n: nat, id: string)
    requires n <= |controls|
  {
    exists k :: 0 <= k < n && controls[k].role.None? && controls[k].id == id
  }

  /** A control that the first loop accepts. */
  predicate Acceptable(controls: seq<Control>, k: nat)
    requires k < |controls|
  {
    !Seen(controls, k, controls[k].id) && (controls[k].role.None? ==> !controls[k].required)
  }

  lemma OneMore(controls: seq<Control>, i: nat)
    requires i < |controls|
    ensures forall id :: Seen(controls, i + 1, id) <==> Seen(controls, i, id) || id == controls[i].id
    ensures forall id :: Foreign(controls, i + 1, id) <==>
      Foreign(controls, i, id) || (controls[i].role.None? && id == controls[i].id)
  {
    forall id
      ensures Seen(controls, i + 1, id) <==> Seen(controls, i, id) || id == controls[i].id
      ensures Foreign(controls, i + 1, id) <==> Foreign(controls, i, id) || (controls[i].role.None? && id == controls[i].id)
    {
      if k :| 0 <= k < i + 1 && controls[k].id == id { assert k < i ==> Seen(controls, i, id); }
      if k :| 0 <= k < i && controls[k].id == id { assert Seen(controls, i + 1, id); }
      if k :| 0 <= k < i + 1 && controls[k].role.None? && controls[k].id == id { assert k < i ==> Foreign(controls, i, id); }
      if k :| 0 <= k < i && controls[k].role.None? && controls[k].id == id { assert Foreign(controls, i + 1, id); }
      assert id == controls[i].id ==> Seen(controls, i + 1, id);
    }
  }

  /** Accepted one by one, the controls have distinct identifiers. */
  lemma AcceptedAreDistinct(controls: seq<Control>)
    ensures (forall k :: 0 <= k < |controls| ==> Acceptable(controls, k)) <==>
      Distinct(controls) && forall c :: c in controls && c.role.None? ==> !c.required
  {
    if Distinct(controls) && forall c :: c in controls && c.role.None? ==> !c.required {
      forall k | 0 <= k < |controls| ensures Acceptable(controls, k) {
        assert controls[k] in controls;
      }
    }
    if forall k :: 0 <= k < |controls| ==> Acceptable(controls, k) {
      forall i, j | 0 <= i < j < |controls| ensures controls[i].id != controls[j].id {
        assert Acceptable(controls, j);
        assert Seen(controls, j, controls[i].id);
      }
      forall c | c in controls && c.role.None? ensures !c.required {
        var k :| 0 <= k < |controls| && controls[k] == c;
        assert Acceptable(controls, k);
      }
    }
  }

  /** The first loop: identifiers are distinct, and foreign controls are optional. */
  method Classify(controls: seq<Control>)
    returns (stop: Option<Result>, resumes: seq<Control>, covers: seq<Control>, skipped: seq<string>)
    ensures stop.None? <==> forall k :: 0 <= k < |controls| ==> Acceptable(controls, k)
    ensures stop.Some? ==> stop.value in {Failed(Ambiguous), Failed(UnsupportedControl)}
    ensures stop.None? ==> resumes == Of(controls, ResumeRole) && covers == Of(controls, CoverRole)
    ensures stop.None? ==> forall id :: id in skipped <==> Foreign(controls, |controls|, id)
  {
    resumes, covers, skipped, stop := [], [], [], None;
    var seen: set<string> := {};
    for i := 0 to |controls|
      invariant forall id :: id in seen <==> Seen(controls, i, id)
      invariant forall id :: id in skipped <==> Foreign(controls, i, id)
      invariant forall k :: 0 <= k < i ==> Acceptable(controls, k)
      invariant resumes == OfFirst(controls, i, ResumeRole) && covers == OfFirst(controls, i, CoverRole)
    {
      var c := controls[i];
      if c.id in seen {
        assert !Acceptable(controls, i);
        return Some(Failed(Ambiguous)), resumes, covers, skipped;
      }
      seen := seen + {c.id};
      if c.role.None? {
        if c.required {
          assert !Acceptable(controls, i);
          return Some(Failed(UnsupportedControl)), resumes, covers, skipped;
        }
        skipped := skipped + [c.id];
      }
      OneMore(controls, i);
      resumes := resumes + if c.role == Some(ResumeRole) then [c] else [];
      covers := covers + if c.role == Some(CoverRole) then [c] else [];
    }
  }

  datatype RoleResult = Uploads(item: Item) | LeavesOut | Stops(result: Result)

  /** One role of the second loop. */
  method ServeRole(controls: seq<Control>, m: Materials, read: Reference -> Option<Content>, role: Role, fields: seq<Control>)
    returns (r: RoleResult)
    requires fields == Of(controls, role) && fields != []
    ensures r.Uploads? ==> r.item.role == role && r.item.control != "" && GoodItem(r.item, controls, m, read)
    ensures r.LeavesOut? <==> ArtifactFor(m, role).None? && Served(controls, m, read, role)
    ensures !r.Stops? <==> Served(controls, m, read, role)
    ensures r.Stops? ==> r.result.Failed? || r.result.Raised?
  {
    var selected := fields[0];
    var artifact := ArtifactFor(m, role);
    if artifact.None? {
      if role == ResumeRole { return Stops(Failed(Integrity)); }
      if selected.required { return Stops(Failed(MaterialMissing)); }
      return LeavesOut;
    }
    if !Verified(artifact.value, read) { return Stops(Failed(Integrity)); }
    if selected.id == "" { return Stops(Raised); }
    return Uploads(Item(selected.id, role, artifact.value, read(artifact.value.reference).value.size));
  }

  /** Identifiers do not repeat. */
  ghost predicate Distinct(controls: seq<Control>) {
    forall i, j :: 0 <= i < j < |controls| ==> controls[i].id != controls[j].id
  }

  lemma {:induction false} OfFirstIsDistinct(controls: seq<Control>, n: nat, role: Role)
    requires Distinct(controls) && n <= |controls|
    ensures Distinct(OfFirst(controls, n, role))
    ensures forall c :: c in OfFirst(controls, n, role) ==> exists k :: 0 <= k < n && controls[k] == c
  {
    if n > 0 {
      OfFirstIsDistinct(controls, n - 1, role);
      var before := OfFirst(controls, n - 1, role);
      forall i | 0 <= i < |before| ensures before[i].id != controls[n - 1].id {
        assert before[i] in before;
      }
    }
  }

  lemma OfIsDistinct(controls: seq<Control>, role: Role)
    requires Distinct(controls)
    ensures Distinct(Of(controls, role))
  {
    OfFirstIsDistinct(controls, |controls|, role);
  }

  /** The controls that get an item: the first of a role that has a material. */
  predicate Chosen(controls: seq<Control>, m: Materials, c: Control) {
    c.role.Some? && Of(controls, c.role.value) != [] && Of(controls, c.role.value)[0] == c && ArtifactFor(m, c.role.value).Some?
  }

  /** Exactly the controls without an item are skipped. */
  ghost predicate SkipsTheRest(controls: seq<Control>, m: Materials, skipped: seq<string>) {
    forall id :: id in skipped <==> exists c :: c in controls && c.id == id && !Chosen(controls, m, c)
  }

  /** The items are those of the chosen controls. */
  ghost predicate ServesTheChosen(controls: seq<Control>, m: Materials, read: Reference -> Option<Content>, items: seq<Item>) {
    && (forall x :: x in items ==> GoodItem(x, controls, m, read) && x.control != "")
    && (forall role :: HasItem(controls, m, role) ==> exists x :: x in items && x.role == role)
    && (forall i, j :: 0 <= i < j < |items| ==> items[i].role != items[j].role)
    && OneSubject(items)
  }

  /** What a ready plan guarantees. */
  ghost predicate GoodPlan(controls: seq<Control>, m: Materials, read: Reference -> Option<Content>,
                           items: seq<Item>, skipped: seq<string>)
  {
    && PlanValid(items, skipped) && OneSubject(items)
    && (forall x :: x in items ==> GoodItem(x, controls, m, read))
    && (forall c :: c in controls ==> (c.id in skipped) != ItemFor(items, c.id))
    && (forall c :: c in controls && c.required ==> ItemFor(items, c.id))
    && (forall id :: id in skipped ==> exists c :: c in controls && c.id == id)
  }

  lemma SameIdSameControl(controls: seq<Control>, c: Control, d: Control)
    requires Distinct(controls) && c in controls && d in controls && c.id == d.id
    ensures c == d
  {
  }

  lemma ItemForIffChosen(controls: seq<Control>, m: Materials, read: Reference -> Option<Content>, items: seq<Item>, c: Control)
    requires Distinct(controls) && ServesTheChosen(controls, m, read, items) && c in controls
    ensures ItemFor(items, c.id) <==> Chosen(controls, m, c)
  {
    if i :| 0 <= i < |items| && items[i].control == c.id {
      assert items[i] in items;
      var d := Of(controls, items[i].role)[0];
      assert d in Of(controls, items[i].role);
      SameIdSameControl(controls, c, d);
    }
    if Chosen(controls, m, c) {
      assert HasItem(controls, m, c.role.value);
      var x :| x in items && x.role == c.role.value;
      var i :| 0 <= i < |items| && items[i] == x;
      assert items[i].control == c.id;
    }
  }

  lemma PlanIsGood(controls: seq<Control>, m: Materials, read: Reference -> Option<Content>, items: seq<Item>, skipped: seq<string>)
    requires Plannable(controls, m, read)
    requires ServesTheChosen(controls, m, read, items) && SkipsTheRest(controls, m, skipped)
    ensures GoodPlan(controls, m, read, items, skipped)
  {
    forall c | c in controls
      ensures (c.id in skipped) != ItemFor(items, c.id)
      ensures c.required ==> ItemFor(items, c.id)
    {
      ItemForIffChosen(controls, m, read, items, c);
      if c.id in skipped {
        var d :| d in controls && d.id == c.id && !Chosen(controls, m, d);
        SameIdSameControl(controls, c, d);
      }
      if c.required {
        RequiredIsChosen(controls, m, read, c);
      }
    }
    forall i | 0 <= i < |items| ensures items[i].control !in skipped && items[i].size >= 1 {
      var d := Of(controls, items[i].role)[0];
      assert items[i] in items && d in Of(controls, items[i].role);
      assert ItemFor(items, d.id);
    }
    forall i, j | 0 <= i < j < |items| ensures items[i].control != items[j].control {
      assert items[i] in items && items[j] in items;
      var c, d := Of(controls, items[i].role)[0], Of(controls, items[j].role)[0];
      assert c in Of(controls, items[i].role) && d in Of(controls, items[j].role);
      if c.id == d.id { SameIdSameControl(controls, c, d); }
    }
  }

  /** A required control is alone in its role, and its material is there. */
  lemma RequiredIsChosen(controls: seq<Control>, m: Materials, read: Reference -> Option<Content>, c: Control)
    requires Plannable(controls, m, read) && c in controls && c.required
    ensures Chosen(controls, m, c)
  {
    assert c.role.Some?;
    var role := c.role.value;
    assert c in Of(controls, role) && Served(controls, m, read, role);
  }

  /** Only the first control of a role can be chosen. */
  lemma ChosenIsFirst(controls: seq<Control>, m: Materials, role: Role, i: nat)
    requires Distinct(controls) && i < |Of(controls, role)|
    ensures Chosen(controls, m, Of(controls, role)[i]) <==> i == 0 && ArtifactFor(m, role).Some?
  {
    OfIsDistinct(controls, role);
    assert Of(controls, role)[i] in Of(controls, role);
  }

  /** Exactly the controls of these that get no item. */
  ghost predicate SkipsOf(fields: seq<Control>, served: bool, skipped: seq<string>) {
    && (forall i :: 0 <= i < |fields| && (i > 0 || !served) ==> fields[i].id in skipped)
    && (forall id :: id in skipped ==> exists i :: 0 <= i < |fields| && (i > 0 || !served) && fields[i].id == id)
  }

  lemma UnservedAreSkipped(fields: seq<Control>, r: RoleResult)
    ensures SkipsOf(fields, r.Uploads?, Unserved(fields, r))
  {
    if fields != [] {
      var rest := Ids(fields[1..]);
      forall i | 0 < i < |fields| ensures fields[i].id in rest {
        assert rest[i - 1] == fields[i].id;
      }
      forall id | id in rest ensures exists i :: 0 < i < |fields| && fields[i].id == id {
        var k :| 0 <= k < |rest| && rest[k] == id;
        assert fields[k + 1].id == id;
      }
    }
  }

  /** The identifiers of a role's controls that get no item. */
  function Unserved(fields: seq<Control>, r: RoleResult): seq<string> {
    if fields == [] then [] else Ids(fields[1..]) + if r.Uploads? then [] else [fields[0].id]
  }

  /** One role: its item, if any, and the controls it leaves out. */
  method PlanRole(controls: seq<Control>, m: Materials, read: Reference -> Option<Content>, role: Role, fields: seq<Control>)
    returns (r: RoleResult, skipped: seq<string>)
    requires fields == Of(controls, role)
    ensures !r.Stops? <==> Served(controls, m, read, role)
    ensures r.Stops? ==> r.result.Failed? || r.result.Raised?
    ensures r.Uploads? ==> r.item.role == role && r.item.control != "" && GoodItem(r.item, controls, m, read)
    ensures !r.Stops? ==> (r.Uploads? <==> HasItem(controls, m, role))
    ensures SkipsOf(fields, r.Uploads?, skipped)
  {
    r := LeavesOut;
    if fields != [] {
      r := ServeRole(controls, m, read, role, fields);
    }
    skipped := Unserved(fields, r);
    UnservedAreSkipped(fields, r);
  }

  lemma RoleRest(controls: seq<Control>, m: Materials, role: Role, skipped: seq<string>)
    requires Distinct(controls) && SkipsOf(Of(controls, role), HasItem(controls, m, role), skipped)
    ensures forall c :: c in controls && c.role == Some(role) && !Chosen(controls, m, c) ==> c.id in skipped
    ensures forall id :: id in skipped ==> exists c :: c in controls && c.id == id && !Chosen(controls, m, c)
  {
    var fields := Of(controls, role);
    forall c | c in controls && c.role == Some(role) && !Chosen(controls, m, c) ensures c.id in skipped {
      var i :| 0 <= i < |fields| && fields[i] == c;
    }
    forall id | id in skipped ensures exists c :: c in controls && c.id == id && !Chosen(controls, m, c) {
      var i :| 0 <= i < |fields| && (i > 0 || !HasItem(controls, m, role)) && fields[i].id == id;
      assert fields[i] in fields;
      ChosenIsFirst(controls, m, role, i);
    }
  }

  lemma RestIsSkipped(controls: seq<Control>, m: Materials, foreign: seq<string>, a: seq<string>, b: seq<string>)
    requires Distinct(controls)
    requires forall id :: id in foreign <==> Foreign(controls, |controls|, id)
    requires SkipsOf(Of(controls, ResumeRole), HasItem(controls, m, ResumeRole), a)
    requires SkipsOf(Of(controls, CoverRole), HasItem(controls, m, CoverRole), b)
    ensures SkipsTheRest(controls, m, foreign + a + b)
  {
    RoleRest(controls, m, ResumeRole, a);
    RoleRest(controls, m, CoverRole, b);
    forall c | c in controls && !Chosen(controls, m, c) ensures c.id in foreign + a + b {
      match c.role
      case None =>
        var k :| 0 <= k < |controls| && controls[k] == c;
        assert Foreign(controls, |controls|, c.id);
      case Some(ResumeRole) => assert c.id in a;
      case Some(CoverRole) => assert c.id in b;
    }
    forall id | id in foreign + a + b ensures exists c :: c in controls && c.id == id && !Chosen(controls, m, c) {
      if id in foreign {
        var k :| 0 <= k < |controls| && controls[k].role.None? && controls[k].id == id;
        assert controls[k] in controls && !Chosen(controls, m, controls[k]);
      }
    }
  }

  /** `plan_application_document_uploads`: ready exactly when the form and the materials
      allow it, and then every control has an item or is skipped, and never both. */
  method PlanUploads(controls: seq<Control>, m: Materials, read: Reference -> Option<Content>) returns (r: Result)
    ensures r.Ready? <==> Plannable(controls, m, read)
    ensures r.Ready? ==> GoodPlan(controls, m, read, r.items, r.skipped)
  {
    var stop, resumes, covers, foreign := Classify(controls);
    AcceptedAreDistinct(controls);
    if stop.Some? { return stop.value; }
    if Crowded(resumes) || Crowded(covers) {
      assert Crowded(Of(controls, ResumeRole)) || Crowded(Of(controls, CoverRole));
      return Failed(Ambiguous);
    }
    var first, a := PlanRole(controls, m, read, ResumeRole, resumes);
    if first.Stops? { return first.result; }
    var second, b := PlanRole(controls, m, read, CoverRole, covers);
    if second.Stops? { return second.result; }
    if first.Uploads? && second.Uploads? && SubjectKeys(second.item.artifact.reference) != SubjectKeys(first.item.artifact.reference) {
      return Failed(Integrity);
    }
    TwoRoles(controls, m, read);
    var items := (if first.Uploads? then [first.item] else []) + (if second.Uploads? then [second.item] else []);
    RestIsSkipped(controls, m, foreign, a, b);
    ItemsServe(controls, m, read, first, second, items);
    PlanIsGood(controls, m, read, items, foreign + a + b);
    return Ready(items, foreign + a + b);
  }

  /** The conditions, role by role. */
  lemma TwoRoles(controls: seq<Control>, m: Materials, read: Reference -> Option<Content>)
    requires Distinct(controls) && forall c :: c in controls && c.role.None? ==> !c.required
    requires !Crowded(Of(controls, ResumeRole)) && !Crowded(Of(controls, CoverRole))
    requires Served(controls, m, read, ResumeRole) && Served(controls, m, read, CoverRole)
    requires HasItem(controls, m, ResumeRole) && HasItem(controls, m, CoverRole) ==>
      SubjectKeys(ArtifactFor(m, ResumeRole).value.reference) == SubjectKeys(ArtifactFor(m, CoverRole).value.reference)
    ensures Plannable(controls, m, read)
  {
    forall role ensures Served(controls, m, read, role) && !Crowded(Of(controls, role)) {
      assert role == ResumeRole || role == CoverRole;
    }
  }

  /** The items of the two roles are those of the chosen controls. */
  lemma ItemsServe(controls: seq<Control>, m: Materials, read: Reference -> Option<Content>,
                   first: RoleResult, second: RoleResult, items: seq<Item>)
    requires first.Uploads? ==> first.item.role == ResumeRole && first.item.control != "" && GoodItem(first.item, controls, m, read)
    requires second.Uploads? ==> second.item.role == CoverRole && second.item.control != "" && GoodItem(second.item, controls, m, read)
    requires first.Uploads? <==> HasItem(controls, m, ResumeRole)
    requires second.Uploads? <==> HasItem(controls, m, CoverRole)
    requires first.Uploads? && second.Uploads? ==>
      SubjectKeys(second.item.artifact.reference) == SubjectKeys(first.item.artifact.reference)
    requires items == (if first.Uploads? then [first.item] else []) + (if second.Uploads? then [second.item] else [])
    ensures ServesTheChosen(controls, m, read, items)
  {
  }

  /** Several controls of one role, one of them required. */
  predicate Crowded(fields: seq<Control>) {
    |fields| > 1 && exists c :: c in fields && c.required
  }
}
