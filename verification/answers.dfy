/** Answer preparation (core/application_answers.py): every considered key is either answered
    from trusted facts, by an allowed default or a confirmed attestation, or left unresolved
    with a reason. */
module Answers {
  import opened Common

  /** The canonical keys, numbered in the order of their names. */
  type Key = k: nat | k < 32

  const ADDRESS: Key := 0
  const ATTESTATION: Key := 1
  const CITY: Key := 2
  const CONSENT: Key := 3
  const COUNTRY: Key := 4
  const COVER_LETTER: Key := 5
  const COVER_LETTER_FILE: Key := 6
  const CURRENT_COMPANY: Key := 7
  const DISABILITY_STATUS: Key := 8
  const EMAIL: Key := 9
  const FIRST_NAME: Key := 10
  const FULL_NAME: Key := 11
  const GENDER: Key := 12
  const GITHUB: Key := 13
  const LAST_NAME: Key := 14
  const LINKEDIN: Key := 15
  const LOCATION: Key := 16
  const PHONE: Key := 17
  const PORTFOLIO: Key := 18
  const POSTAL_CODE: Key := 19
  const PREFERRED_NAME: Key := 20
  const RACE_ETHNICITY: Key := 21
  const RELOCATION: Key := 22
  const RESUME: Key := 23
  const SALARY: Key := 24
  const SIGNATURE: Key := 25
  const SPONSORSHIP: Key := 26
  const START_DATE: Key := 27
  const STATE: Key := 28
  const UNKNOWN: Key := 29
  const VETERAN_STATUS: Key := 30
  const WORK_AUTHORIZATION: Key := 31

  datatype ValueType = TextType | BooleanType | EnumType | FileType | AttestationType | UnknownType

  /** In increasing order of protection. */
  datatype Sensitivity = Basic | Personal | Legal | Compensation | VoluntarySelfId | ApplicationMaterial | AttestationLevel | Unsupported

  function Level(s: Sensitivity): nat {
    match s
    case Basic => 0 case Personal => 1 case Legal => 2 case Compensation => 3 case VoluntarySelfId => 4
    case ApplicationMaterial => 5 case AttestationLevel => 6 case Unsupported => 7
  }

  /** The taxonomy. */
  function TypeOf(k: Key): ValueType {
    if k in {RESUME, COVER_LETTER_FILE} then FileType
    else if k in {WORK_AUTHORIZATION, SPONSORSHIP, RELOCATION} then BooleanType
    else if k in {GENDER, RACE_ETHNICITY, VETERAN_STATUS, DISABILITY_STATUS} then EnumType
    else if k in {ATTESTATION, CONSENT, SIGNATURE} then AttestationType
    else if k == UNKNOWN then UnknownType
    else TextType
  }

  function SensitivityOf(k: Key): Sensitivity {
    if k in {RESUME, COVER_LETTER, COVER_LETTER_FILE} then ApplicationMaterial
    else if k in {WORK_AUTHORIZATION, SPONSORSHIP} then Legal
    else if k == SALARY then Compensation
    else if k in {GENDER, RACE_ETHNICITY, VETERAN_STATUS, DISABILITY_STATUS} then VoluntarySelfId
    else if k in {ATTESTATION, CONSENT, SIGNATURE} then AttestationLevel
    else if k == UNKNOWN then Unsupported
    else if k in {LOCATION, ADDRESS, CITY, STATE, POSTAL_CODE, COUNTRY, CURRENT_COMPANY, RELOCATION, START_DATE} then Personal
    else Basic
  }

  /** A value as JSON distinguishes it. */
  datatype Value = Text(text: string) | Flag(on: bool) | OtherJson(json: string)

  /** `_validate_value`: attestation and unknown keys accept no value at all. */
  predicate ValueFits(k: Key, v: Value) {
    match TypeOf(k)
    case TextType => v.Text? && Strip(v.text) != ""
    case EnumType => v.Text? && Strip(v.text) != ""
    case FileType => v.Text? && Strip(v.text) != ""
    case BooleanType => v.Flag?
    case AttestationType => false
    case UnknownType => false
  }

  datatype Scope = Scope(jobId: Option<string>, jobIds: Option<seq<string>>)

  datatype Fact = Fact(
    id: string, key: Key, value: Value, userConfirmed: bool, sensitivity: Sensitivity, scope: Scope,
    verifiedAt: int, expiresAt: Option<int>)

  /** `_scope_allows`: an empty scope allows every job; otherwise the job must be named. */
  predicate ScopeAllows(s: Scope, job: string) {
    || (s.jobId.None? && s.jobIds.None?)
    || (s.jobId.Some? && s.jobId.value != "" && s.jobId.value == job)
    || (s.jobIds.Some? && job in s.jobIds.value)
  }

  predicate Active(f: Fact, now: int, job: string) {
    f.verifiedAt <= now && (f.expiresAt.None? || f.expiresAt.value > now) && ScopeAllows(f.scope, job)
  }

  datatype Policy = Policy(tracked: set<Key>, declines: set<Key>, attested: set<Key>) {
    predicate Valid() { declines <= tracked && attested <= tracked }
  }

  /** A current attestation, bound to the plan and key or not. */
  datatype AttestationRead = ReadRaises | NoAttestation | Attestation(id: string, bound: bool, confirmed: bool)

  datatype Inputs = Inputs(
    facts: seq<Fact>, policy: Policy, forbidden: set<Key>, attest: Key -> AttestationRead, now: int, job: string)
  {
    /** What the constructors of the snapshot and the policy guarantee. */
    ghost predicate Valid() {
      && policy.Valid()
      && (forall i, j :: 0 <= i < j < |facts| ==> facts[i].id != facts[j].id)
    }

    predicate Confirmed(k: Key) { k in policy.attested && attest(k).Attestation? && attest(k).confirmed }
  }

  /** The active facts of one key, in order. */
  function FactsFor(x: Inputs, k: Key, n: nat): (r: seq<Fact>)
    requires n <= |x.facts|
    ensures forall f :: f in r <==> f in x.facts[..n] && Active(f, x.now, x.job) && f.key == k
  {
    if n == 0 then []
    else
      var rest := FactsFor(x, k, n - 1);
      assert x.facts[..n] == x.facts[..n - 1] + [x.facts[n - 1]];
      if Active(x.facts[n - 1], x.now, x.job) && x.facts[n - 1].key == k then rest + [x.facts[n - 1]] else rest
  }

  function Support(x: Inputs, k: Key): seq<Fact> {
    FactsFor(x, k, |x.facts|)
  }

  datatype Source = UserConfirmed | VerifiedFact | PolicyDefault

  datatype Answer = Answer(key: Key, value: Value, source: Source, support: seq<string>, sensitivity: Sensitivity)

  datatype Why = MissingFact | RequiresAttestation | RequiresUserChoice | PolicyForbids | UnsupportedKey

  datatype Unresolved = Unresolved(key: Key, why: Why, blocking: bool)

  const DECLINE := Text("DECLINE_TO_ANSWER")

  function Ids(facts: seq<Fact>): seq<string> {
    seq(|facts|, i requires 0 <= i < |facts| => facts[i].id)
  }

  predicate SameValue(facts: seq<Fact>) {
    forall i, j :: 0 <= i < |facts| && 0 <= j < |facts| ==> facts[i].value == facts[j].value
  }

  predicate SomeConfirmed(facts: seq<Fact>) {
    exists i :: 0 <= i < |facts| && facts[i].userConfirmed
  }

  /** The keys on which preparation stops: a value that does not fit its type. */
  predicate Mismatches(x: Inputs, k: Key) {
    && k != UNKNOWN && k !in x.policy.attested && k !in x.forbidden
    && Support(x, k) != [] && SameValue(Support(x, k)) && !ValueFits(k, Support(x, k)[0].value)
  }

  /** The keys on which the constructor of an answer raises: a confirmed attestation of a key
      that is not boolean, or a default for a key that takes no text. */
  predicate Raises(x: Inputs, k: Key) {
    && k != UNKNOWN
    && (if k in x.policy.attested then x.Confirmed(k) && TypeOf(k) != BooleanType
        else k !in x.forbidden && Support(x, k) == [] && k in x.policy.declines && !ValueFits(k, DECLINE))
  }

  /** What justifies an answer. */
  ghost predicate Justified(x: Inputs, a: Answer) {
    && a.key != UNKNOWN && ValueFits(a.key, a.value)
    && (if a.key in x.policy.attested then
          x.Confirmed(a.key) && a.value == Flag(true) && a.source == UserConfirmed && a.support == [x.attest(a.key).id]
          && a.sensitivity == SensitivityOf(a.key)
        else
          && a.key !in x.forbidden
          && var facts := Support(x, a.key);
            if a.source == PolicyDefault then
              facts == [] && a.key in x.policy.declines && a.value == DECLINE && a.support == [] && a.sensitivity == SensitivityOf(a.key)
            else
              && facts != [] && (forall f :: f in facts ==> f.value == a.value) && a.support == Ids(facts)
              && (a.source == UserConfirmed <==> SomeConfirmed(facts))
              && (a.key == SALARY ==> SomeConfirmed(facts))
              && Level(a.sensitivity) >= Level(SensitivityOf(a.key))
              && (forall f :: f in facts ==> Level(a.sensitivity) >= Level(f.sensitivity))
              && (a.sensitivity == SensitivityOf(a.key) || exists f :: f in facts && f.sensitivity == a.sensitivity))
  }

  /** Why a key was left open. */
  ghost predicate Explained(x: Inputs, u: Unresolved) {
    match u.why
    case UnsupportedKey => u.key == UNKNOWN && !u.blocking
    case RequiresAttestation => u.key != UNKNOWN && u.key in x.policy.attested && !x.Confirmed(u.key) && u.blocking
    case PolicyForbids => u.key != UNKNOWN && u.key !in x.policy.attested && u.key in x.forbidden && !u.blocking
    case MissingFact =>
      u.key != UNKNOWN && u.key !in x.policy.attested + x.forbidden + x.policy.declines && Support(x, u.key) == [] && !u.blocking
    case RequiresUserChoice =>
      && u.key != UNKNOWN && u.key !in x.policy.attested + x.forbidden && Support(x, u.key) != [] && u.blocking
      && (!SameValue(Support(x, u.key)) || (u.key == SALARY && !SomeConfirmed(Support(x, u.key))))
  }

  /** An answer and an explanation exclude each other: the split is determined by the inputs. */
  lemma AnswerOrExplanation(x: Inputs, a: Answer, u: Unresolved)
    requires Justified(x, a) && Explained(x, u)
    ensures a.key != u.key
  {
  }

  /** `max` over the taxonomy's and the facts' levels. */
  method MaxSensitivity(k: Key, facts: seq<Fact>) returns (s: Sensitivity)
    ensures Level(s) >= Level(SensitivityOf(k)) && forall f :: f in facts ==> Level(s) >= Level(f.sensitivity)
    ensures s == SensitivityOf(k) || exists f :: f in facts && f.sensitivity == s
  {
    s := SensitivityOf(k);
    for i := 0 to |facts|
      invariant Level(s) >= Level(SensitivityOf(k)) && forall j :: 0 <= j < i ==> Level(s) >= Level(facts[j].sensitivity)
      invariant s == SensitivityOf(k) || exists f :: f in facts && f.sensitivity == s
    {
      if Level(facts[i].sensitivity) > Level(s) {
        s := facts[i].sensitivity;
        assert facts[i] in facts;
      }
    }
  }

  datatype Step = Answered(answer: Answer) | Left(item: Unresolved) | Mismatch | Raise

  /** One key of the loop, branch by branch in the source's order. */
  method Consider(x: Inputs, k: Key, facts: seq<Fact>) returns (r: Step)
    requires facts == Support(x, k)
    ensures r.Answered? ==> r.answer.key == k && Justified(x, r.answer)
    ensures r.Left? ==> r.item.key == k && Explained(x, r.item)
    ensures r.Mismatch? <==> Mismatches(x, k)
    ensures r.Raise? <==> Raises(x, k)
  {
    if k == UNKNOWN { return Left(Unresolved(k, UnsupportedKey, false)); }
    if k in x.policy.attested {
      if x.Confirmed(k) {
        if !ValueFits(k, Flag(true)) { return Raise; }
        return Answered(Answer(k, Flag(true), UserConfirmed, [x.attest(k).id], SensitivityOf(k)));
      }
      return Left(Unresolved(k, RequiresAttestation, true));
    }
    if k in x.forbidden { return Left(Unresolved(k, PolicyForbids, false)); }
    if facts == [] {
      if k in x.policy.declines {
        if !ValueFits(k, DECLINE) { return Raise; }
        return Answered(Answer(k, DECLINE, PolicyDefault, [], SensitivityOf(k)));
      }
      return Left(Unresolved(k, MissingFact, false));
    }
    if !SameValue(facts) { return Left(Unresolved(k, RequiresUserChoice, true)); }
    if !ValueFits(k, facts[0].value) { return Mismatch; }
    if k == SALARY && !SomeConfirmed(facts) { return Left(Unresolved(k, RequiresUserChoice, true)); }
    var sensitivity := MaxSensitivity(k, facts);
    assert forall f :: f in facts ==> f.value == facts[0].value;
    return Answered(Answer(k, facts[0].value, if SomeConfirmed(facts) then UserConfirmed else VerifiedFact, Ids(facts), sensitivity));
  }

  /** `by_key`. */
  method GroupByKey(x: Inputs) returns (byKey: map<Key, seq<Fact>>)
    ensures forall k: Key :: Support(x, k) == if k in byKey then byKey[k] else []
    ensures forall k :: k in byKey ==> byKey[k] != []
  {
    byKey := map[];
    for i := 0 to |x.facts|
      invariant forall k: Key :: FactsFor(x, k, i) == if k in byKey then byKey[k] else []
      invariant forall k :: k in byKey ==> byKey[k] != []
    {
      var f := x.facts[i];
      if Active(f, x.now, x.job) {
        byKey := byKey[f.key := (if f.key in byKey then byKey[f.key] else []) + [f]];
      }
    }
  }

  /** Keys in the order of their names, each once. */
  ghost predicate Ascending(keys: seq<Key>) {
    forall i, j :: 0 <= i < j < |keys| ==> keys[i] < keys[j]
  }

  method SortedKeys(considered: set<Key>) returns (keys: seq<Key>)
    ensures Ascending(keys) && forall k :: k in keys <==> k in considered
  {
    keys := [];
    for r := 0 to 32
      invariant Ascending(keys) && forall k :: k in keys <==> k in considered && k < r
      invariant forall i :: 0 <= i < |keys| ==> keys[i] < r
    {
      if r in considered {
        keys := keys + [r];
      }
    }
  }

  function AnswerKeys(answers: seq<Answer>): seq<Key> {
    seq(|answers|, i requires 0 <= i < |answers| => answers[i].key)
  }

  function OpenKeys(items: seq<Unresolved>): seq<Key> {
    seq(|items|, i requires 0 <= i < |items| => items[i].key)
  }

  /** The keys that preparation looks at: the tracked ones, and those with an active fact. */
  ghost predicate Considered(x: Inputs, k: Key) {
    k in x.policy.tracked || Support(x, k) != []
  }

  predicate AttestationBroken(x: Inputs, k: Key) {
    x.attest(k).ReadRaises? || (x.attest(k).Attestation? && !x.attest(k).bound)
  }

  datatype Result =
    | Prepared(answers: seq<Answer>, unresolved: seq<Unresolved>)
    | NeedsHuman(reasons: set<Why>)
    | NoTrustedFacts
    | AttestationsUnreadable
    | ValueMismatch
    | Raised

  /** The attestations of the policy's keys; `ok` is false when one cannot be used. */
  method ReadAttestations(x: Inputs) returns (ok: bool, some: bool)
    ensures ok <==> forall k :: k in x.policy.attested ==> !AttestationBroken(x, k)
    ensures ok ==> (some <==> exists k :: k in x.policy.attested && x.attest(k).Attestation?)
  {
    var keys := SortedKeys(x.policy.attested);
    ok, some := true, false;
    for i := 0 to |keys|
      invariant forall j :: 0 <= j < i ==> !AttestationBroken(x, keys[j])
      invariant some <==> exists j :: 0 <= j < i && x.attest(keys[j]).Attestation?
    {
      assert keys[i] in keys;
      if AttestationBroken(x, keys[i]) { return false, some; }
      some := some || x.attest(keys[i]).Attestation?;
    }
    forall k | k in x.policy.attested ensures !AttestationBroken(x, k) { assert k in keys; }
    if some {
      var j :| 0 <= j < |keys| && x.attest(keys[j]).Attestation?;
      assert keys[j] in keys;
    }
  }

  /** The answers and open items are an ordered split of the first `n` keys. */
  ghost predicate Split(keys: seq<Key>, n: nat, answers: seq<Answer>, items: seq<Unresolved>)
    requires n <= |keys|
  {
    && Ascending(AnswerKeys(answers)) && Ascending(OpenKeys(items))
    && (forall i :: 0 <= i < n ==> (keys[i] in AnswerKeys(answers)) != (keys[i] in OpenKeys(items)))
    && (forall k :: k in AnswerKeys(answers) || k in OpenKeys(items) ==> k in keys[..n])
  }

  /** The loop over the considered keys. */
  method ConsiderAll(x: Inputs, keys: seq<Key>, byKey: map<Key, seq<Fact>>)
    returns (answers: seq<Answer>, items: seq<Unresolved>, stop: Option<Result>)
    requires Ascending(keys)
    requires forall k: Key :: Support(x, k) == if k in byKey then byKey[k] else []
    ensures stop.None? ==> Split(keys, |keys|, answers, items)
    ensures forall a :: a in answers ==> Justified(x, a)
    ensures forall u :: u in items ==> Explained(x, u)
    ensures stop.None? <==> forall i :: 0 <= i < |keys| ==> !Mismatches(x, keys[i]) && !Raises(x, keys[i])
    ensures stop.Some? ==> exists n :: 0 <= n < |keys| && Stops(x, keys, n, stop.value)
  {
    answers, items, stop := [], [], None;
    for i := 0 to |keys|
      invariant Split(keys, i, answers, items)
      invariant forall a :: a in answers ==> Justified(x, a)
      invariant forall u :: u in items ==> Explained(x, u)
      invariant forall j :: 0 <= j < i ==> !Mismatches(x, keys[j]) && !Raises(x, keys[j])
    {
      var k := keys[i];
      var step := Consider(x, k, if k in byKey then byKey[k] else []);
      match step {
        case Answered(a) =>
          AddedAnswer(keys, i, answers, items, a);
          answers := answers + [a];
        case Left(u) =>
          AddedItem(keys, i, answers, items, u);
          items := items + [u];
        case Mismatch =>
          assert Stops(x, keys, i, ValueMismatch);
          return answers, items, Some(ValueMismatch);
        case Raise =>
          assert Stops(x, keys, i, Raised);
          return answers, items, Some(Raised);
      }
    }
  }

  /** The first key that cannot be handled decides how preparation stops. */
  ghost predicate Stops(x: Inputs, keys: seq<Key>, n: nat, r: Result)
    requires n < |keys|
  {
    && (forall j :: 0 <= j < n ==> !Mismatches(x, keys[j]) && !Raises(x, keys[j]))
    && ((r == ValueMismatch && Mismatches(x, keys[n])) || (r == Raised && Raises(x, keys[n])))
  }

  lemma AddedAnswer(keys: seq<Key>, n: nat, answers: seq<Answer>, items: seq<Unresolved>, a: Answer)
    requires n < |keys| && Ascending(keys) && Split(keys, n, answers, items) && a.key == keys[n]
    ensures Split(keys, n + 1, answers + [a], items)
  {
    assert AnswerKeys(answers + [a]) == AnswerKeys(answers) + [a.key];
    NotYet(keys, n, AnswerKeys(answers), OpenKeys(items));
  }

  lemma AddedItem(keys: seq<Key>, n: nat, answers: seq<Answer>, items: seq<Unresolved>, u: Unresolved)
    requires n < |keys| && Ascending(keys) && Split(keys, n, answers, items) && u.key == keys[n]
    ensures Split(keys, n + 1, answers, items + [u])
  {
    assert OpenKeys(items + [u]) == OpenKeys(items) + [u.key];
    NotYet(keys, n, AnswerKeys(answers), OpenKeys(items));
  }

  /** Everything handled so far comes before the next key. */
  lemma NotYet(keys: seq<Key>, n: nat, a: seq<Key>, b: seq<Key>)
    requires n < |keys| && Ascending(keys) && forall k :: k in a || k in b ==> k in keys[..n]
    ensures (forall i :: 0 <= i < |a| ==> a[i] < keys[n]) && (forall i :: 0 <= i < |b| ==> b[i] < keys[n])
  {
    forall k | k in keys[..n] ensures k < keys[n] {}
    forall i | 0 <= i < |a| ensures a[i] < keys[n] { assert a[i] in a; }
    forall i | 0 <= i < |b| ensures b[i] < keys[n] { assert b[i] in b; }
  }

  /** The considered keys fall into justified answers and explained open items, each once and
      in order. */
  ghost predicate CorrectSplit(x: Inputs, answers: seq<Answer>, items: seq<Unresolved>) {
    && (forall a :: a in answers ==> Justified(x, a))
    && (forall u :: u in items ==> Explained(x, u))
    && Ascending(AnswerKeys(answers)) && Ascending(OpenKeys(items))
    && (forall k: Key :: Considered(x, k) <==> k in AnswerKeys(answers) || k in OpenKeys(items))
    && (forall k :: k in AnswerKeys(answers) ==> k !in OpenKeys(items))
  }

  /** An instruction that forbids a key stops its answer, except for a boolean key with a
      confirmed attestation. */
  lemma ForbiddenAnsweredIff(x: Inputs, answers: seq<Answer>, items: seq<Unresolved>, k: Key)
    requires CorrectSplit(x, answers, items) && Considered(x, k) && k in x.forbidden
    ensures k in AnswerKeys(answers) <==> x.Confirmed(k) && TypeOf(k) == BooleanType
  {
    if k in AnswerKeys(answers) {
      var i :| 0 <= i < |answers| && answers[i].key == k;
      assert answers[i] in answers && Justified(x, answers[i]);
    } else {
      var i :| 0 <= i < |items| && items[i].key == k;
      assert items[i] in items && Explained(x, items[i]);
    }
  }

  /** Attestations exist only for attestation keys, as the constructor of one demands. */
  ghost predicate AttestsOnlyAttestations(x: Inputs) {
    forall k: Key :: x.attest(k).Attestation? ==> TypeOf(k) == AttestationType
  }

  /** Under that condition a forbidden key is never answered. */
  lemma ForbiddenNeverAnswered(x: Inputs, answers: seq<Answer>, items: seq<Unresolved>, k: Key)
    requires CorrectSplit(x, answers, items) && AttestsOnlyAttestations(x) && k in x.forbidden
    ensures k !in AnswerKeys(answers)
  {
    assert x.Confirmed(k) ==> x.attest(k).Attestation?;
    if k in AnswerKeys(answers) {
      ForbiddenAnsweredIff(x, answers, items, k);
    }
  }

  /** A policy that asks for an attestation of relocation, a provider that has one, and an
      instruction that forbids it. */
  function ForbiddenRelocation(): Inputs {
    Inputs([], Policy({RELOCATION}, {}, {RELOCATION}), {RELOCATION}, _ => Attestation("attestation", true, true), 0, "job")
  }

  /** For that input the forbidden key is answered all the same. */
  method PrepareForbiddenRelocation() returns (r: Result)
    ensures RELOCATION in ForbiddenRelocation().forbidden
    ensures r.Prepared? && RELOCATION in AnswerKeys(r.answers)
  {
    var x := ForbiddenRelocation();
    r := PrepareAnswers(x);
    RelocationIsHandled();
    if r.Prepared? {
      ForbiddenAnsweredIff(x, r.answers, r.unresolved, RELOCATION);
    }
  }

  lemma RelocationIsHandled()
    ensures var x := ForbiddenRelocation();
            && Considered(x, RELOCATION) && x.Confirmed(RELOCATION) && TypeOf(RELOCATION) == BooleanType
            && (forall why :: !LeftOpen(x, RELOCATION, why))
            && (forall k: Key :: Considered(x, k) ==> !Mismatches(x, k) && !Raises(x, k))
            && (forall k :: k in x.policy.attested ==> !AttestationBroken(x, k))
  {
    var x := ForbiddenRelocation();
    assert forall k: Key :: Support(x, k) == [];
  }

  /** `prepare_application_answers`.  When it completes, the considered keys are split into
      justified answers and explained open items, each key once and in order; it stops only
      on a key whose value cannot be constructed. */
  method PrepareAnswers(x: Inputs) returns (r: Result)
    requires x.Valid()
    ensures r.AttestationsUnreadable? <==> exists k :: k in x.policy.attested && AttestationBroken(x, k)
    ensures r.NoTrustedFacts? ==>
      (forall f :: f in x.facts ==> !Active(f, x.now, x.job)) && forall k :: k in x.policy.attested ==> !x.attest(k).Attestation?
    ensures r.Prepared? ==> r.answers != [] && CorrectSplit(x, r.answers, r.unresolved)
    ensures r.Prepared? || r.NeedsHuman? ==> forall k: Key :: Considered(x, k) ==> !Mismatches(x, k) && !Raises(x, k)
    ensures r.NeedsHuman? ==> forall k: Key :: Considered(x, k) ==> exists why :: why in r.reasons && LeftOpen(x, k, why)
    ensures r.ValueMismatch? ==> exists k: Key :: Considered(x, k) && Mismatches(x, k)
    ensures r.Raised? ==> exists k: Key :: Considered(x, k) && Raises(x, k)
  {
    var ok, some := ReadAttestations(x);
    if !ok { return AttestationsUnreadable; }
    var byKey := GroupByKey(x);
    if byKey == map[] && !some {
      forall f | f in x.facts ensures !Active(f, x.now, x.job) {
        NoSupportNoActive(x, f);
      }
      return NoTrustedFacts;
    }
    var keys := SortedKeys(x.policy.tracked + byKey.Keys);
    forall k: Key ensures Considered(x, k) <==> k in keys {}
    var answers, items, stop;
    answers, items, stop := ConsiderAll(x, keys, byKey);
    if stop.Some? {
      ghost var n :| 0 <= n < |keys| && Stops(x, keys, n, stop.value);
      assert keys[n] in keys && Considered(x, keys[n]);
      return stop.value;
    }
    SplitCovers(keys, answers, items);
    if answers == [] {
      forall k: Key | Considered(x, k) ensures exists why :: why in Reasons(items) && LeftOpen(x, k, why) {
        assert k in OpenKeys(items);
        var i :| 0 <= i < |items| && items[i].key == k;
        assert items[i] in items && items[i] == Unresolved(k, items[i].why, items[i].blocking);
        assert items[i].why in Reasons(items) && LeftOpen(x, k, items[i].why);
      }
      return NeedsHuman(Reasons(items));
    }
    return Prepared(answers, items);
  }

  function Reasons(items: seq<Unresolved>): set<Why> {
    set u | u in items :: u.why
  }

  ghost predicate LeftOpen(x: Inputs, k: Key, why: Why) {
    Explained(x, Unresolved(k, why, true)) || Explained(x, Unresolved(k, why, false))
  }

  lemma NoSupportNoActive(x: Inputs, f: Fact)
    requires f in x.facts && forall k: Key :: Support(x, k) == []
    ensures !Active(f, x.now, x.job)
  {
    assert x.facts[..|x.facts|] == x.facts;
    assert Active(f, x.now, x.job) ==> f in Support(x, f.key);
  }

  lemma SplitCovers(keys: seq<Key>, answers: seq<Answer>, items: seq<Unresolved>)
    requires Split(keys, |keys|, answers, items)
    ensures forall k :: k in keys <==> k in AnswerKeys(answers) || k in OpenKeys(items)
    ensures forall k :: k in AnswerKeys(answers) ==> k !in OpenKeys(items)
  {
  }
}
