/** Posting identity on Workday (adapters/workday.py): which page belongs to which job. */
module WorkdayIdentity {
  import opened Common

  /** A parsed URL; a port that does not parse is `BadPort`. */
  datatype Port = NoPort | Port(number: nat) | BadPort

  datatype Url = Url(scheme: string, host: string, port: Port, path: string, query: seq<(string, seq<string>)>)

  /** `casefold`, on ASCII. */
  function Lower(s: string): string {
    seq(|s|, i requires 0 <= i < |s| => if 'A' <= s[i] <= 'Z' then s[i] + ' ' else s[i])
  }

  /** The non-empty pieces between slashes. */
  function Segments(s: string): seq<string> {
    Scan(s, "")
  }

  /** The pieces of `s` when `piece` has been read since the last slash. */
  function Scan(s: string, piece: string): seq<string> {
    if s == "" then Piece(piece)
    else if s[0] == '/' then Piece(piece) + Scan(s[1..], "")
    else Scan(s[1..], piece + [s[0]])
  }

  function Piece(x: string): seq<string> {
    if x == "" then [] else [x]
  }

  predicate IsSegment(x: string) {
    x != "" && '/' !in x
  }

  predicate AllSegments(segments: seq<string>) {
    forall i :: 0 <= i < |segments| ==> IsSegment(segments[i])
  }

  lemma {:induction false} ScanGivesSegments(s: string, piece: string)
    requires '/' !in piece
    ensures AllSegments(Scan(s, piece))
  {
    if s != "" {
      if s[0] == '/' {
        ScanGivesSegments(s[1..], "");
      } else {
        ScanGivesSegments(s[1..], piece + [s[0]]);
      }
    }
  }

  function JoinPath(segments: seq<string>): string {
    if segments == [] then "" else "/" + segments[0] + JoinPath(segments[1..])
  }

  /** `_normalized_url_path`. */
  function NormalizedPath(path: string): string {
    if Segments(path) == [] then "/" else JoinPath(Segments(path))
  }

  /** Splitting distributes over a boundary that is a slash. */
  lemma {:induction false} ScanOfConcat(a: string, b: string, piece: string)
    requires b == "" || b[0] == '/'
    ensures Scan(a + b, piece) == Scan(a, piece) + Scan(b, "")
  {
    if a == "" {
      assert a + b == b;
    } else {
      assert (a + b)[0] == a[0] && (a + b)[1..] == a[1..] + b;
      if a[0] == '/' {
        ScanOfConcat(a[1..], b, "");
      } else {
        ScanOfConcat(a[1..], b, piece + [a[0]]);
      }
    }
  }

  lemma {:induction false} ScanOfOne(x: string, piece: string)
    requires '/' !in x
    ensures Scan(x, piece) == Piece(piece + x)
  {
    if x == "" {
      assert piece + x == piece;
    } else {
      ScanOfOne(x[1..], piece + [x[0]]);
      assert piece + [x[0]] + x[1..] == piece + x;
    }
  }

  lemma SegmentsOfConcat(a: string, b: string)
    requires b == "" || b[0] == '/'
    ensures Segments(a + b) == Segments(a) + Segments(b)
  {
    ScanOfConcat(a, b, "");
  }

  lemma SegmentsOfOne(x: string)
    requires IsSegment(x)
    ensures Segments("/" + x) == [x]
  {
    assert ("/" + x)[1..] == x && "" + x == x;
    ScanOfOne(x, "");
  }

  /** Joining and splitting are inverse. */
  lemma {:induction false} SegmentsOfJoin(segments: seq<string>)
    requires AllSegments(segments)
    ensures Segments(JoinPath(segments)) == segments
  {
    if segments != [] {
      SegmentsOfOne(segments[0]);
      SegmentsOfConcat("/" + segments[0], JoinPath(segments[1..]));
      SegmentsOfJoin(segments[1..]);
    }
  }

  /** Path normalisation is idempotent, and keeps the segments. */
  lemma NormalizeIdempotent(path: string)
    ensures Segments(NormalizedPath(path)) == Segments(path)
    ensures NormalizedPath(NormalizedPath(path)) == NormalizedPath(path)
  {
    ScanGivesSegments(path, "");
    SegmentsOfJoin(Segments(path));
    assert Scan("/", "") == [];
  }

  lemma {:induction false} JoinOfConcat(p: seq<string>, q: seq<string>)
    ensures JoinPath(p + q) == JoinPath(p) + JoinPath(q)
  {
    if p == [] {
      assert p + q == q;
    } else {
      assert (p + q)[1..] == p[1..] + q;
      JoinOfConcat(p[1..], q);
    }
  }

  /** The string test of the adapter (equal, or prefix followed by a slash) is exactly the
      prefix relation on segments. */
  lemma PrefixIffSegments(p: seq<string>, q: seq<string>)
    requires AllSegments(p) && AllSegments(q)
    ensures JoinPath(q) == JoinPath(p) || JoinPath(p) + "/" <= JoinPath(q) <==> p <= q
  {
    if p <= q {
      var rest := q[|p|..];
      assert q == p + rest;
      JoinOfConcat(p, rest);
      if rest != [] {
        assert JoinPath(rest)[0] == '/';
        assert JoinPath(q)[..|JoinPath(p)| + 1] == JoinPath(p) + "/";
      }
    }
    if JoinPath(q) == JoinPath(p) || JoinPath(p) + "/" <= JoinPath(q) {
      StringPrefixIsSegmentPrefix(p, q);
    }
  }

  lemma StringPrefixIsSegmentPrefix(p: seq<string>, q: seq<string>)
    requires AllSegments(p) && AllSegments(q)
    requires JoinPath(q) == JoinPath(p) || JoinPath(p) + "/" <= JoinPath(q)
    ensures p <= q
  {
    var rest := JoinPath(q)[|JoinPath(p)|..];
    assert JoinPath(q) == JoinPath(p) + rest;
    SegmentsOfConcat(JoinPath(p), rest);
    SegmentsOfJoin(p);
    SegmentsOfJoin(q);
  }

  /** `is_trusted_workday_host`. */
  predicate Trusted(host: string) {
    var h := TrimDots(Lower(host));
    exists i :: 0 <= i < |SUFFIXES| && (h == SUFFIXES[i] || EndsWith(h, "." + SUFFIXES[i]))
  }

  const SUFFIXES := ["myworkdayjobs.com", "myworkdaysite.com", "workdayjobs.com", "workday.com"]

  predicate EndsWith(s: string, suffix: string) {
    |suffix| <= |s| && s[|s| - |suffix|..] == suffix
  }

  function TrimDots(s: string): string {
    if s != "" && s[|s| - 1] == '.' then TrimDots(s[..|s| - 1]) else s
  }

  datatype Origin = NoOrigin | Origin(scheme: string, host: string, port: Option<nat>)

  /** `_canonical_origin`: default ports are dropped (RFC 3986, section 6.2.3). */
  function CanonicalOrigin(u: Url): Origin {
    var scheme, host := Lower(u.scheme), TrimDots(Lower(u.host));
    if scheme !in {"http", "https"} || host == "" || u.port == BadPort then NoOrigin
    else if u.port == NoPort || u.port == Port(DefaultPort(scheme)) then Origin(scheme, host, None)
    else Origin(scheme, host, Some(u.port.number))
  }

  function DefaultPort(scheme: string): nat {
    if scheme == "https" then 443 else 80
  }

  /** `normalize_text(value).replace(" ", "")`: lower-case letters and digits only. */
  function Compact(s: string): string {
    if s == "" then ""
    else
      var c := Lower(s[..1])[0];
      (if 'a' <= c <= 'z' || '0' <= c <= '9' then [c] else "") + Compact(s[1..])
  }

  const REQUISITION_KEYS := ["jobid", "job_id", "requisitionid", "requisition_id", "jobreqid"]

  /** `_query_requisition_id`: the first key in priority order that the query holds. */
  function Requisition(query: seq<(string, seq<string>)>): string {
    RequisitionFrom(query, 0)
  }

  function RequisitionFrom(query: seq<(string, seq<string>)>, i: nat): string
    requires i <= |REQUISITION_KEYS|
    decreases |REQUISITION_KEYS| - i
  {
    if i == |REQUISITION_KEYS| then ""
    else
      match ValueOf(query, REQUISITION_KEYS[i])
      case Some(value) => Compact(value)
      case None => RequisitionFrom(query, i + 1)
  }

  function ValueOf(query: seq<(string, seq<string>)>, key: string): Option<string> {
    if query == [] then None
    else if Lower(query[0].0) == key && query[0].1 != [] then Some(query[0].1[0])
    else ValueOf(query[1..], key)
  }

  const STAGES := {
    "apply", "autofillwithresume", "myinformation", "myexperience", "applicationquestions",
    "voluntarydisclosures", "selfidentify", "review", "confirmation"
  }

  predicate StageToken(segment: string) {
    DropMarks(Lower(segment)) in STAGES
  }

  function DropMarks(s: string): string {
    if s == "" then "" else (if s[0] == '-' || s[0] == '_' then "" else [s[0]]) + DropMarks(s[1..])
  }

  /** The index of the first segment from `i` on that names an application stage. */
  function FirstStage(segments: seq<string>, i: nat): (r: nat)
    requires i <= |segments|
    ensures i <= r <= |segments|
    ensures r < |segments| ==> StageToken(segments[r])
    ensures forall k :: i <= k < r ==> !StageToken(segments[k])
    decreases |segments| - i
  {
    if i == |segments| || StageToken(segments[i]) then i else FirstStage(segments, i + 1)
  }

  function FirstJob(segments: seq<string>): (r: nat)
    ensures r <= |segments|
    ensures r < |segments| ==> Lower(segments[r]) == "job"
    ensures forall k :: 0 <= k < r ==> Lower(segments[k]) != "job"
  {
    if segments == [] || Lower(segments[0]) == "job" then 0 else FirstJob(segments[1..]) + 1
  }

  /** The segments that name the posting: up to the first stage after `job/...`. */
  function PostingSegments(segments: seq<string>): (r: seq<string>)
    ensures r <= segments
  {
    var job := FirstJob(segments);
    if job + 1 >= |segments| then [] else segments[..FirstStage(segments, job + 1)]
  }

  datatype Identity = Identity(origin: Origin, postingPath: string, requisition: string)

  function PostingPath(path: string): string {
    if PostingSegments(Segments(path)) == [] then "" else JoinPath(PostingSegments(Segments(path)))
  }

  /** `_workday_posting_identity`. */
  function PostingIdentity(u: Url): Option<Identity> {
    if !Trusted(u.host) || CanonicalOrigin(u) == NoOrigin then None
    else if PostingPath(u.path) == "" && Requisition(u.query) == "" then None
    else Some(Identity(CanonicalOrigin(u), PostingPath(u.path), Requisition(u.query)))
  }

  datatype Verdict = Match | Mismatch | Unclear

  /** `_identity_url_status`. */
  function UrlStatus(requested: Identity, u: Url): Verdict {
    if CanonicalOrigin(u) != requested.origin then
      if u.host != "" then Mismatch else Unclear
    else if requested.requisition != "" && Requisition(u.query) != "" then
      if Requisition(u.query) == requested.requisition then Match else Mismatch
    else
      var path := NormalizedPath(u.path);
      if requested.postingPath != "" && (path == requested.postingPath || requested.postingPath + "/" <= path) then Match
      else if PostingIdentity(u).Some? && PostingIdentity(u).value.postingPath != "" then Mismatch
      else Unclear
  }

  /** `_workday_identity_status`: the page's own URL decides; the posting links it shows are
      consulted only when it is unclear. */
  function PageStatus(requested: Identity, url: Url, postingUrls: seq<Url>): Verdict {
    var primary := UrlStatus(requested, url);
    if primary != Unclear then primary
    else if exists i :: 0 <= i < |postingUrls| && UrlStatus(requested, postingUrls[i]) == Match then Match
    else if exists i :: 0 <= i < |postingUrls| && UrlStatus(requested, postingUrls[i]) == Mismatch then Mismatch
    else Unclear
  }

  lemma PostingPathShape(path: string)
    ensures Segments(PostingPath(path)) == PostingSegments(Segments(path))
    ensures PostingPath(path) != "" ==> PostingPath(path) == JoinPath(PostingSegments(Segments(path)))
  {
    ScanGivesSegments(path, "");
    SegmentsOfJoin(PostingSegments(Segments(path)));
  }

  /** Without requisition ids on both sides, a page matches exactly when the origins agree
      and the requested posting path is a segment-wise prefix of its path. */
  lemma MatchIff(u: Url, v: Url)
    requires PostingIdentity(u).Some?
    requires Requisition(u.query) == "" || Requisition(v.query) == ""
    ensures UrlStatus(PostingIdentity(u).value, v) == Match <==>
      && CanonicalOrigin(v) == CanonicalOrigin(u)
      && PostingSegments(Segments(u.path)) != []
      && PostingSegments(Segments(u.path)) <= Segments(v.path)
  {
    var p, q := PostingSegments(Segments(u.path)), Segments(v.path);
    ScanGivesSegments(u.path, "");
    ScanGivesSegments(v.path, "");
    PostingPathShape(u.path);
    PrefixIffSegments(p, q);
    if p != [] {
      assert JoinPath(p)[0] == '/' && |JoinPath(p)| > 1 by {
        assert IsSegment(p[0]);
      }
    }
  }

  /** A posting always matches itself. */
  lemma SelfMatch(u: Url)
    requires PostingIdentity(u).Some?
    ensures UrlStatus(PostingIdentity(u).value, u) == Match
  {
    if Requisition(u.query) == "" {
      MatchIff(u, u);
      PostingPathShape(u.path);
    }
  }

  /** Moving on to the application pages keeps the posting path. */
  lemma ApplyKeepsPath(path: string, rest: string)
    requires PostingPath(path) != "" && (rest == "" || rest[0] == '/')
    ensures PostingPath(path + "/apply" + rest) == PostingPath(path)
  {
    ApplySegments(path, rest);
    PostingExtends(Segments(path), ["apply"] + Segments(rest));
  }

  lemma PostingExtends(s: seq<string>, more: seq<string>)
    requires PostingSegments(s) != [] && more != [] && StageToken(more[0])
    ensures PostingSegments(s + more) == PostingSegments(s)
  {
    FirstJobExtends(s, more);
    FirstStageExtends(s, more, FirstJob(s) + 1);
    var end := FirstStage(s, FirstJob(s) + 1);
    assert (s + more)[..end] == s[..end];
  }

  lemma ApplySegments(path: string, rest: string)
    requires rest == "" || rest[0] == '/'
    ensures Segments(path + "/apply" + rest) == Segments(path) + (["apply"] + Segments(rest))
    ensures StageToken("apply")
  {
    var apply := "/apply";
    ApplyIsStage();
    SegmentsOfConcat(path + apply, rest);
    SegmentsOfConcat(path, apply);
  }

  lemma ApplyIsStage()
    ensures Segments("/apply") == ["apply"] && StageToken("apply")
  {
    assert "/" + "apply" == "/apply";
    assert IsSegment("apply");
    SegmentsOfOne("apply");
    assert Lower("apply") == "apply";
    assert DropMarks("apply") == "apply" by {
      assert DropMarks("ply") == "ply";
    }
  }

  lemma {:induction false} FirstJobExtends(s: seq<string>, more: seq<string>)
    requires FirstJob(s) < |s|
    ensures FirstJob(s + more) == FirstJob(s)
  {
    var a, b := FirstJob(s), FirstJob(s + more);
    assert (s + more)[a] == s[a];
    if b < |s| { assert (s + more)[b] == s[b]; }
  }

  lemma {:induction false} FirstStageExtends(s: seq<string>, more: seq<string>, i: nat)
    requires i <= |s| && more != [] && StageToken(more[0])
    ensures FirstStage(s + more, i) == FirstStage(s, i)
  {
    var a, b := FirstStage(s, i), FirstStage(s + more, i);
    assert StageToken((s + more)[a]);
    assert forall k :: i <= k < a ==> (s + more)[k] == s[k];
  }

  /** So every application page of a posting, on the same origin, matches it. */
  lemma ApplicationPagesMatch(u: Url, v: Url, rest: string)
    requires PostingIdentity(u).Some? && PostingPath(u.path) != ""
    requires rest == "" || rest[0] == '/'
    requires v.path == u.path + "/apply" + rest && CanonicalOrigin(v) == CanonicalOrigin(u)
    requires Requisition(u.query) == "" || Requisition(v.query) in {"", Requisition(u.query)}
    ensures UrlStatus(PostingIdentity(u).value, v) == Match
    ensures Trusted(v.host) ==> PostingIdentity(v).Some? && PostingIdentity(v).value.postingPath == PostingPath(u.path)
  {
    ApplyKeepsPath(u.path, rest);
    if Requisition(u.query) == "" || Requisition(v.query) == "" {
      MatchIff(u, v);
      PostingPathShape(u.path);
      PostingPathShape(v.path);
    }
  }

  /** Two different postings of a site, neither a prefix of the other, exclude each other. */
  lemma OtherPostingMismatches(u: Url, v: Url)
    requires PostingIdentity(u).Some? && PostingIdentity(v).Some?
    requires PostingPath(u.path) != "" && PostingPath(v.path) != ""
    requires Requisition(u.query) == "" || Requisition(v.query) == ""
    requires !(PostingSegments(Segments(u.path)) <= Segments(v.path))
    ensures UrlStatus(PostingIdentity(u).value, v) == Mismatch
  {
    MatchIff(u, v);
    assert CanonicalOrigin(v) != NoOrigin;
    assert TrimDots(Lower(v.host)) != "";
  }
}
