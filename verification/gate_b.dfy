/** Gate B: one-time permits (core/permits.py), owner-checked leases (core/leases.py) and
    the validator that `execute` hands to the adapter (core/application_engine.py). */
module GateB {
  import opened Common
  import opened Outcomes
  import opened Ledger

  datatype Lease = Lease(resource: string, owner: string, token: string)

  datatype LeaseRow = LeaseRow(owner: string, token: string, expiresAt: int)

  datatype LeaseStatus = Current | NotFound | NotOwner | Expired

  /** `assert_current`: token, owner and expiry against the authoritative row. */
  function AssertCurrent(rows: map<string, LeaseRow>, lease: Lease, now: int): LeaseStatus {
    if lease.resource !in rows then NotFound
    else
      var row := rows[lease.resource];
      if row.owner != lease.owner || row.token != lease.token then NotOwner
      else if row.expiresAt <= now then Expired
      else Current
  }

  datatype Actor = Codex | Human

  datatype PlanScope = PlanScope(adapterPlatform: string, rest: string)

  /** Everything an approval is bound to; `plan` marks a plan-scoped submission permit. */
  datatype Bindings = Bindings(
    runId: string, jobId: string, urlKey: string, material: string, answer: string,
    review: string, policy: string, plan: Option<PlanScope>)

  datatype Bundle = Bundle(
    runId: string, jobId: string, url: JobUrl, material: string, answer: string,
    policy: string, planHash: string, blocked: bool, gateAActor: Actor, gateBActor: Actor)
  {
    function PermitBindings(review: string): Bindings {
      Bindings(runId, jobId, url.key, material, answer, review, policy, None)
    }

    function Idem(review: string): Idempotency {
      Idempotency(url.key, material, answer, review, policy)
    }
  }

  /** A permit token: only the service can produce a signed one. */
  datatype Token =
    | Malformed
    | Signed(jti: string, gate: Gate, bindings: Bindings, issuedAt: int, expiresAt: int)

  /** `verify_at`: signature, expiry, issue time, gate and exact bindings. */
  predicate Accepts(token: Token, now: int, gate: Gate, bindings: Bindings) {
    && token.Signed?
    && now < token.expiresAt
    && token.issuedAt <= now + 30
    && token.gate == gate
    && token.bindings == bindings
  }

  /** One call of the validator: its arguments, the lease table and clock it meets, and
      what other workers commit between its ledger writes. */
  datatype ValidatorCall = ValidatorCall(
    token: Token, jobId: string, runId: string, fingerprint: string,
    leases: map<string, LeaseRow>, now: int,
    beforeConsume: seq<Event>, beforeCreate: seq<Event>, beforeStart: seq<Event>)
  {
    /** No interference at all. */
    predicate Alone() { beforeConsume == [] && beforeCreate == [] && beforeStart == [] }
  }

  /** The writes of a validator call, which a process that dies in it may leave behind. */
  predicate ValidatorWrites(events: seq<Event>) {
    forall k :: 0 <= k < |events| ==>
      events[k].PermitConsumed? || events[k].IntentCreated? || (events[k].IntentMoved? && events[k].target == IntentStatus.Submitting)
  }

  datatype ValidatorError = BindingMismatch | DuplicateSubmission | LeaseUnavailable | PermitRejected

  datatype Answer = Granted | Refused | RaisedError

  /** Where in the log the three writes behind one `True` stand. */
  datatype Grant = Grant(call: ValidatorCall, consumedAt: nat, createdAt: nat, startedAt: nat, intent: nat)

  /** The closure's state: the box for the intent, the success flag and the last error. */
  class GateBValidator {
    const ledger: EventLedger
    const bundle: Bundle
    const reviewHash: string
    const bindings: Bindings
    const runLease: Lease
    const browserLease: Lease
    ghost const base: nat

    var intent: Option<nat>
    var succeeded: bool
    var error: Option<ValidatorError>
    ghost var grants: seq<Grant>

    constructor (ledger: EventLedger, bundle: Bundle, reviewHash: string, bindings: Bindings,
                 runLease: Lease, browserLease: Lease)
      requires ledger.Valid()
      ensures Valid() && this.ledger == ledger && this.bundle == bundle && this.reviewHash == reviewHash
      ensures this.bindings == bindings && this.runLease == runLease && this.browserLease == browserLease
      ensures base == |ledger.events| && intent == None && !succeeded && error == None && grants == []
    {
      this.ledger, this.bundle, this.reviewHash, this.bindings := ledger, bundle, reviewHash, bindings;
      this.runLease, this.browserLease := runLease, browserLease;
      base := |ledger.events|;
      intent, succeeded, error, grants := None, false, None, [];
    }

    /** The checks that stand before the first ledger write. */
    predicate Admissible(call: ValidatorCall) {
      && call.jobId == bundle.jobId && call.runId == bundle.runId && call.fingerprint == reviewHash
      && AssertCurrent(call.leases, runLease, call.now) == Current
      && AssertCurrent(call.leases, browserLease, call.now) == Current
      && Accepts(call.token, call.now, Gate.GateB, bindings)
    }

    /** Why an inadmissible call is refused; the first failing check decides. */
    function Refusal(call: ValidatorCall): ValidatorError {
      if call.jobId != bundle.jobId || call.runId != bundle.runId || call.fingerprint != reviewHash then BindingMismatch
      else if AssertCurrent(call.leases, runLease, call.now) != Current then LeaseUnavailable
      else if AssertCurrent(call.leases, browserLease, call.now) != Current then LeaseUnavailable
      else PermitRejected
    }

    /** A grant: admissible arguments, then permit, reservation and start, in this order. */
    ghost predicate GrantIn(log: seq<Event>, g: Grant) {
      && Admissible(g.call)
      && base <= g.consumedAt < g.createdAt < g.startedAt < |log|
      && log[g.consumedAt] == PermitConsumed(Gate.GateB, bindings.runId, bindings.jobId, g.call.token.jti)
      && log[g.createdAt] == IntentCreated(bundle.runId, bundle.jobId, bundle.Idem(reviewHash))
      && g.intent == |Replay(log[..g.createdAt]).intents|
      && log[g.startedAt] == IntentMoved(g.intent, IntentStatus.Submitting)
      && StartAt(log, g.startedAt, bundle.url.key)
    }

    /** Grants, each behind the one before. */
    ghost predicate GrantsIn(log: seq<Event>, gs: seq<Grant>) {
      && (forall i :: 0 <= i < |gs| ==> GrantIn(log, gs[i]))
      && (forall i, j :: 0 <= i < j < |gs| ==> gs[i].startedAt < gs[j].startedAt)
    }

    ghost predicate Valid()
      reads this, ledger
    {
      && ledger.Valid()
      && base <= |ledger.events|
      && (succeeded <==> grants != [])
      && (succeeded ==> intent.Some?)
      && (intent.Some? ==>
            && intent.value < |ledger.intents|
            && ledger.intents[intent.value].idem == bundle.Idem(reviewHash))
      && GrantsIn(ledger.events, grants)
    }

    /** A grant is for the fingerprint this validator approves. */
    lemma GrantFits(g: Grant)
      requires Valid() && g in grants
      ensures g.call.fingerprint == reviewHash
    {
      var i :| 0 <= i < |grants| && grants[i] == g;
      assert GrantIn(ledger.events, grants[i]);
    }

    /** The reservation in the box stands at SUBMITTING, and without one nothing was reserved. */
    ghost predicate Steady()
      requires Valid()
      reads this, ledger
    {
      && (intent.Some? ==> ledger.intents[intent.value].status == IntentStatus.Submitting)
      && (intent.None? ==> NoReservationsSince(ledger.events, base))
    }

    lemma GrantSurvives(log: seq<Event>, longer: seq<Event>, g: Grant)
      requires log <= longer && GrantIn(log, g)
      ensures GrantIn(longer, g)
    {
      assert longer[..g.createdAt] == log[..g.createdAt];
      assert longer[..g.startedAt] == log[..g.startedAt];
    }

    lemma GrantsSurvive(log: seq<Event>, longer: seq<Event>, gs: seq<Grant>)
      requires log <= longer && GrantsIn(log, gs)
      ensures GrantsIn(longer, gs)
    {
      forall i | 0 <= i < |gs| ensures GrantIn(longer, gs[i]) { GrantSurvives(log, longer, gs[i]); }
    }

    /** The reserved row is still there, whatever happened to the log since. */
    lemma RowSurvives(log: seq<Event>, longer: seq<Event>, id: nat)
      requires Legal(longer) && log <= longer && id < |Replay(log).intents|
      ensures id < |Replay(longer).intents| && Replay(longer).intents[id].idem == Replay(log).intents[id].idem
    {
      assert longer[..|log|] == log;
      RowsPersist(longer, |log|, id);
    }

    /** Interference cannot undo what the validator knows. */
    method Interfere(others: seq<Event>)
      requires Valid()
      modifies ledger
      ensures Valid() && old(ledger.events) <= ledger.events
      ensures others == [] ==> ledger.events == old(ledger.events) && ledger.View() == old(ledger.View())
      ensures ValidatorWrites(others) ==> NoOutcomesSince(ledger.events, |old(ledger.events)|)
    {
      ghost var before := ledger.events;
      ledger.Interfere(others);
      GrantsSurvive(before, ledger.events, grants);
      if intent.Some? {
        RowSurvives(before, ledger.events, intent.value);
      }
    }

    /** The reservation written at one position of the log. */
    ghost predicate ReservedAt(log: seq<Event>, at: nat, id: nat) {
      && at < |log|
      && log[at] == IntentCreated(bundle.runId, bundle.jobId, bundle.Idem(reviewHash))
      && id == |Replay(log[..at]).intents|
    }

    /** First write: the permit is consumed, or found used, or its run does not fit. */
    method Consume(call: ValidatorCall) returns (answer: Answer, ghost at: nat)
      requires Valid() && Admissible(call)
      modifies this`error, ledger
      ensures Valid() && old(ledger.events) <= ledger.events
      ensures call.Alone() ==> NoReservationsSince(ledger.events, |old(ledger.events)|)
      ensures call.Alone() ==> NoOutcomesSince(ledger.events, |old(ledger.events)|)
      ensures answer == Granted ==>
        && |old(ledger.events)| <= at < |ledger.events|
        && ledger.events[at] == PermitConsumed(Gate.GateB, bindings.runId, bindings.jobId, call.token.jti)
      ensures error == if answer == Refused then Some(PermitRejected) else old(error)
      ensures call.Alone() ==> ledger.runs == old(ledger.runs) && ledger.intents == old(ledger.intents)
      ensures call.Alone() && answer == RaisedError ==>
        bindings.runId !in ledger.runs || ledger.runs[bindings.runId].jobId != bindings.jobId
    {
      Interfere(call.beforeConsume);
      ghost var log := ledger.events;
      at := |log|;
      var consumed := ledger.ConsumePermit(Gate.GateB, bindings.runId, bindings.jobId, call.token.jti);
      GrantsSurvive(log, ledger.events, grants);
      if consumed.Ok? { return Granted, at; }
      if consumed.error != PermitAlreadyConsumed { return RaisedError, at; }
      error := Some(PermitRejected);
      return Refused, at;
    }

    /** Second write: the reservation, published to the box at once. */
    method Reserve(call: ValidatorCall) returns (answer: Answer, ghost at: nat)
      requires Valid() && Admissible(call)
      modifies this`error, this`intent, ledger
      ensures Valid() && old(ledger.events) <= ledger.events
      ensures call.Alone() && answer != Granted ==> ledger.events == old(ledger.events)
      ensures call.Alone() ==> NoOutcomesSince(ledger.events, |old(ledger.events)|)
      ensures answer == Granted ==>
        && |old(ledger.events)| <= at && intent.Some? && ReservedAt(ledger.events, at, intent.value)
        && ledger.intents[intent.value].status == IntentStatus.Pending
      ensures answer != Granted ==> intent == old(intent)
      ensures error == if answer == Refused then Some(ValidatorError.DuplicateSubmission) else old(error)
      ensures call.Alone() ==> ledger.runs == old(ledger.runs)
      ensures call.Alone() && answer != Granted ==> ledger.intents == old(ledger.intents)
      ensures call.Alone() && answer == RaisedError ==>
        call.runId !in ledger.runs || ledger.runs[call.runId].jobId != call.jobId
      ensures call.Alone() && old(intent).Some? && Active(old(ledger.intents)[old(intent).value]) ==> answer != Granted
    {
      Interfere(call.beforeCreate);
      ghost var log := ledger.events;
      at := |log|;
      var created := ledger.CreateSubmissionIntent(bundle.runId, bundle.jobId, bundle.url, bundle.Idem(reviewHash));
      GrantsSurvive(log, ledger.events, grants);
      if created.Ok? {
        assert ledger.events[..at] == log;
        intent := Some(created.value);
        return Granted, at;
      }
      if created.error != Duplicate { return RaisedError, at; }
      error := Some(ValidatorError.DuplicateSubmission);
      return Refused, at;
    }

    /** Permit, reservation and start, in this order, make a grant. */
    lemma NewGrant(log: seq<Event>, gs: seq<Grant>, call: ValidatorCall, consumedAt: nat, createdAt: nat, id: nat)
      requires Admissible(call) && base <= consumedAt < createdAt && ReservedAt(log, createdAt, id)
      requires log[consumedAt] == PermitConsumed(Gate.GateB, bindings.runId, bindings.jobId, call.token.jti)
      requires id < |Replay(log).intents| && Replay(log).intents[id].idem == bundle.Idem(reviewHash)
      requires GrantsIn(log, gs)
      ensures GrantsIn(log + [IntentMoved(id, IntentStatus.Submitting)], gs + [Grant(call, consumedAt, createdAt, |log|, id)])
    {
      var longer := log + [IntentMoved(id, IntentStatus.Submitting)];
      assert longer[..createdAt] == log[..createdAt];
      assert longer[..|log|] == log;
      GrantsSurvive(log, longer, gs);
    }

    /** Third write: the submission is durably started. */
    method Start(call: ValidatorCall, ghost consumedAt: nat, ghost createdAt: nat) returns (answer: Answer)
      requires Valid() && Admissible(call) && intent.Some?
      requires base <= consumedAt < createdAt && ReservedAt(ledger.events, createdAt, intent.value)
      requires ledger.events[consumedAt] == PermitConsumed(Gate.GateB, bindings.runId, bindings.jobId, call.token.jti)
      modifies this`succeeded, this`grants, ledger
      ensures Valid() && old(ledger.events) <= ledger.events
      ensures call.Alone() ==> NoOutcomesSince(ledger.events, |old(ledger.events)|)
      ensures answer == Granted ==>
        && ledger.intents[intent.value].status == IntentStatus.Submitting
        && |grants| == |old(grants)| + 1 && grants[..|old(grants)|] == old(grants)
        && grants[|old(grants)|].call == call && grants[|old(grants)|].consumedAt == consumedAt
        && grants[|old(grants)|].intent == intent.value
      ensures answer != Granted ==> answer == RaisedError && grants == old(grants) && succeeded == old(succeeded)
      ensures call.Alone() ==> ledger.runs == old(ledger.runs)
      ensures call.Alone() && old(ledger.intents)[intent.value].status == IntentStatus.Pending ==> answer == Granted
    {
      Interfere(call.beforeStart);
      assert ledger.events[..createdAt] == old(ledger.events)[..createdAt];
      answer := StartNow(call, consumedAt, createdAt);
    }

    /** `mark_submission_started`, and the success flag behind it. */
    method StartNow(call: ValidatorCall, ghost consumedAt: nat, ghost createdAt: nat) returns (answer: Answer)
      requires Valid() && Admissible(call) && intent.Some?
      requires base <= consumedAt < createdAt && ReservedAt(ledger.events, createdAt, intent.value)
      requires ledger.events[consumedAt] == PermitConsumed(Gate.GateB, bindings.runId, bindings.jobId, call.token.jti)
      modifies this`succeeded, this`grants, ledger
      ensures Valid() && ledger.runs == old(ledger.runs)
      ensures answer == if old(ledger.intents)[intent.value].status == IntentStatus.Pending then Granted else RaisedError
      ensures answer == Granted ==>
        && ledger.events == old(ledger.events) + [IntentMoved(intent.value, IntentStatus.Submitting)]
        && ledger.intents[intent.value].status == IntentStatus.Submitting
        && grants == old(grants) + [Grant(call, consumedAt, createdAt, |old(ledger.events)|, intent.value)]
      ensures answer != Granted ==> ledger.events == old(ledger.events) && grants == old(grants) && succeeded == old(succeeded)
    {
      ghost var log := ledger.events;
      var id := intent.value;
      NewGrant(log, grants, call, consumedAt, createdAt, id);
      var started := ledger.TransitionIntent(id, IntentStatus.Pending, IntentStatus.Submitting);
      if started.Err? { return RaisedError; }
      succeeded := true;
      grants := grants + [Grant(call, consumedAt, createdAt, |log|, id)];
      return Granted;
    }

    /** `validate_and_reserve`.  True comes only from an admissible call, after the permit
        was consumed, the intent durably reserved and its submission durably started. */
    method Validate(call: ValidatorCall) returns (answer: Answer)
      requires Valid()
      modifies this, ledger
      ensures Valid() && old(ledger.events) <= ledger.events
      ensures call.Alone() ==> NoOutcomesSince(ledger.events, |old(ledger.events)|)
      ensures answer == Granted ==>
        && |grants| == |old(grants)| + 1 && grants[..|old(grants)|] == old(grants)
        && grants[|old(grants)|].call == call && |old(ledger.events)| <= grants[|old(grants)|].consumedAt
        && intent == Some(grants[|old(grants)|].intent)
        && ledger.intents[intent.value].status == IntentStatus.Submitting
        && error == old(error)
      ensures answer != Granted ==> grants == old(grants) && succeeded == old(succeeded)
      ensures answer == Refused ==> error.Some? && intent == old(intent)
      ensures !Admissible(call) ==>
        answer == Refused && error == Some(Refusal(call)) && intent == old(intent) && ledger.events == old(ledger.events)
      ensures old(intent).Some? ==> intent.Some?
      ensures call.Alone() ==>
        && ledger.runs == old(ledger.runs)
        && (old(Steady()) ==> Steady())
        && (answer != Granted ==> ledger.intents == old(ledger.intents))
        && (old(intent).Some? && Active(old(ledger.intents)[old(intent).value]) ==> answer != Granted)
    {
      if call.jobId != bundle.jobId || call.runId != bundle.runId || call.fingerprint != reviewHash {
        error := Some(BindingMismatch);
        return Refused;
      }
      if AssertCurrent(call.leases, runLease, call.now) != Current
         || AssertCurrent(call.leases, browserLease, call.now) != Current {
        error := Some(LeaseUnavailable);
        return Refused;
      }
      if !Accepts(call.token, call.now, Gate.GateB, bindings) {
        error := Some(PermitRejected);
        return Refused;
      }
      answer := ReserveAndStart(call);
    }

    /** The three writes, for a call that passed the checks. */
    method ReserveAndStart(call: ValidatorCall) returns (answer: Answer)
      requires Valid() && Admissible(call)
      modifies this, ledger
      ensures Valid() && old(ledger.events) <= ledger.events
      ensures call.Alone() ==> NoOutcomesSince(ledger.events, |old(ledger.events)|)
      ensures answer == Granted ==>
        && |grants| == |old(grants)| + 1 && grants[..|old(grants)|] == old(grants)
        && grants[|old(grants)|].call == call && |old(ledger.events)| <= grants[|old(grants)|].consumedAt
        && intent == Some(grants[|old(grants)|].intent)
        && ledger.intents[intent.value].status == IntentStatus.Submitting
        && error == old(error)
      ensures answer != Granted ==> grants == old(grants) && succeeded == old(succeeded)
      ensures answer == Refused ==> error.Some? && intent == old(intent)
      ensures old(intent).Some? ==> intent.Some?
      ensures call.Alone() ==>
        && ledger.runs == old(ledger.runs)
        && (old(Steady()) ==> Steady())
        && (answer != Granted ==> ledger.intents == old(ledger.intents))
        && (old(intent).Some? && Active(old(ledger.intents)[old(intent).value]) ==> answer != Granted)
    {
      ghost var consumedAt, createdAt;
      answer, consumedAt := Consume(call);
      if answer != Granted { return; }
      ghost var log := ledger.events;
      answer, createdAt := Reserve(call);
      if answer != Granted { return; }
      assert ledger.events[consumedAt] == log[consumedAt];
      assert grants == old(grants) && succeeded == old(succeeded) && error == old(error);
      answer := Start(call, consumedAt, createdAt);
    }
  }
}
