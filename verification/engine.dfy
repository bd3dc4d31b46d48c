/** `JobApplicationEngine.execute` (core/application_engine.py): policy, permits, leases,
    ledger and an adapter composed into one run.

    The world of one call says what other workers commit before each of its own ledger
    writes, where the process dies, which leases are free and what the adapter does. */
module Engine {
  import opened Common
  import opened Outcomes
  import opened Ledger
  import opened GateB
  import opened AtsProtocol
  import Workday
  import WorkdaySubmit

  datatype Request = Request(
    bundle: Bundle, requestSubmit: bool, approveGateA: bool, approvedReview: string,
    token: Option<Token>, scoped: Option<Bindings>, browserLease: Option<Lease>)
  {
    predicate External() { token.Some? || scoped.Some? }

    /** A review that only a person can approve, by naming it in a later call. */
    predicate HumanReviewed() { !External() && bundle.gateBActor == Human }
  }

  /** How an adapter pass ends.  A process that dies may leave the first writes of an
      unfinished validator call behind. */
  datatype Ending =
    | Returns(outcome: Outcome) | Raises | RaisesLeaseUnavailable | Dies(lastWrites: seq<Event>)

  /** An adapter that does anything with the validator, the deterministic one, or the Workday
      one with what it keeps from earlier runs.  A Workday run that dies is cut off behind
      its last effect, so a shorter script stands for every earlier end. */
  datatype Adapter =
    | Untrusted(calls: seq<ValidatorCall>, ending: Ending)
    | Ats(ctx: Context, script: Script, sha: Payload -> string, digest: string -> string)
    | Driver(memory: Workday.Memory, setup: Workday.WorkdayContext, pages: Workday.RunScript, death: Option<seq<Event>>)
  {
    ghost predicate Alone() {
      match this
      case Untrusted(calls, ending) =>
        && (forall i :: 0 <= i < |calls| ==> calls[i].Alone())
        && (ending.Dies? ==> ValidatorWrites(ending.lastWrites))
      case Ats(_, script, _, _) => script.Alone()
      case Driver(_, _, pages, death) => pages.Alone() && (death.Some? ==> ValidatorWrites(death.value))
    }
  }

  datatype World = World(
    env: nat -> seq<Event>, dies: nat -> bool, gateAJti: string, gateBJti: string,
    runLeaseToken: Option<string>, browserToken: Option<string>,
    leases: map<string, LeaseRow>, now: int, first: Adapter, second: Adapter)
  {
    /** Nobody else writes to the ledger during the call. */
    ghost predicate Quiet() { (forall k :: env(k) == []) && second.Alone() }

    /** The process does not die at one of the engine's own writes. */
    ghost predicate Lives() { forall k :: !dies(k) }
  }

  datatype Ended = Returned(outcome: Outcome) | Raised | Died

  /** The outcome of a pass, or the reason why there is none. */
  datatype Settled = Says(outcome: Outcome) | Cut(how: Ended)

  /** The log grew.  If nobody else wrote, every outcome recorded since is accounted for, and
      an intent was reserved only if the call knows it. */
  ghost predicate Extends(before: seq<Event>, after: seq<Event>, recorded: set<nat>, reserved: bool, quiet: bool) {
    && before <= after
    && (quiet ==> Complete(after, |before|, recorded))
    && (quiet && !reserved ==> NoReservationsSince(after, |before|))
  }

  ghost predicate Complete(log: seq<Event>, from: nat, recorded: set<nat>) {
    forall k :: from <= k < |log| && log[k].RunStateChanged? ==> k in recorded
  }

  lemma ExtendsFurther(a: seq<Event>, b: seq<Event>, c: seq<Event>, first: set<nat>, later: set<nat>, reserved: bool, quiet: bool)
    requires Extends(a, b, first, false, quiet) && Extends(b, c, later, reserved, quiet)
    ensures Extends(a, c, first + later, reserved, quiet)
  {
  }

  lemma ExtendsAfter(a: seq<Event>, b: seq<Event>, c: seq<Event>, first: set<nat>, later: set<nat>, reserved: bool, quiet: bool)
    requires Extends(a, b, first, reserved, quiet) && Extends(b, c, later, false, quiet)
    ensures Extends(a, c, first + later, reserved, quiet)
  {
  }

  /** `issue_gate_b`'s default lifetime, in seconds. */
  const GATE_B_TTL := 300

  /** The latest ready review of a run in a log, by position. */
  function LatestReview(log: seq<Event>, runId: string): (r: Option<nat>)
    ensures r.Some? ==> r.value < |log| && IsReview(log[r.value], runId)
    ensures r.Some? ==> forall k :: r.value < k < |log| ==> !IsReview(log[k], runId)
    ensures r.None? ==> forall k :: 0 <= k < |log| ==> !IsReview(log[k], runId)
  {
    if log == [] then None
    else
      var n := |log| - 1;
      if IsReview(log[n], runId) then Some(n) else LatestReview(log[..n], runId)
  }

  predicate IsReview(e: Event, runId: string) {
    e.RunStateChanged? && e.runId == runId && e.outcome.status == ReviewReady
  }

  function Own(b: Bundle, status: Status, reason: Reason): Outcome {
    Outcome(b.runId, b.jobId, status, reason, "", status == FailedRetryable, "", [], NO_DETAILS)
  }

  /** `_reject_untrusted_verified`. */
  function RejectVerified(o: Outcome): Outcome {
    o.(status := SubmitUnknown, reason := ConfirmationMissing, retryable := false,
       details := o.details.(doNotRetry := true))
  }

  /** The answer that must never be retried automatically. */
  predicate MustNotRetry(o: Outcome) {
    o.status == SubmitUnknown && !o.retryable && o.details.doNotRetry
  }

  /** What the second pass needs: the reviewed fingerprint and everything bound to it. */
  datatype Approval = Approval(review: string, bindings: Bindings, token: Token, runLease: Lease, browserLease: Lease)

  /** What one call did: its grants, the reservation, and its outcome records. */
  datatype Report = Report(
    validator: GateBValidator?, grants: seq<Grant>, intent: Option<nat>,
    recorded: set<nat>, payload: Option<Payload>)

  const NOTHING := Report(null, [], None, {}, None)

  /** Positions of outcome records, none of them a verified submission. */
  ghost predicate Unverified(log: seq<Event>, from: nat, recorded: set<nat>) {
    forall k :: k in recorded ==>
      from <= k < |log| && log[k].RunStateChanged? && log[k].outcome.status != SubmittedVerified
  }

  /** An untrusted adapter may call the validator as it likes, and die in a call.  Every yes
      it gets is counted on the page, and each is a new grant. */
  method RunUntrusted(calls: seq<ValidatorCall>, ending: Ending, page: Page, v: GateBValidator)
    requires v.Valid()
    modifies page`granted, v, v.ledger
    ensures v.Valid() && old(v.ledger.events) <= v.ledger.events && old(v.grants) <= v.grants
    ensures page.granted == old(page.granted) + |v.grants| - |old(v.grants)|
    ensures Untrusted(calls, ending).Alone() ==> NoOutcomesSince(v.ledger.events, |old(v.ledger.events)|)
    ensures Untrusted(calls, ending).Alone() && old(v.Steady()) && !ending.Dies? ==>
      v.Steady() && v.ledger.runs == old(v.ledger.runs)
  {
    ghost var alone := Untrusted(calls, ending).Alone();
    for i := 0 to |calls|
      invariant v.Valid() && old(v.ledger.events) <= v.ledger.events && old(v.grants) <= v.grants
      invariant page.granted == old(page.granted) + |v.grants| - |old(v.grants)|
      invariant alone ==> NoOutcomesSince(v.ledger.events, |old(v.ledger.events)|)
      invariant alone && old(v.Steady()) ==> v.Steady() && v.ledger.runs == old(v.ledger.runs)
    {
      var answer := v.Validate(calls[i]);
      if answer == Granted {
        page.granted := page.granted + 1;
      }
    }
    if ending.Dies? {
      v.Interfere(ending.lastWrites);
    }
  }

  /** One adapter pass, for a call that began when the ledger was `began` long.  The page's
      trace grows by this run, and by one yes for each of the validator's new grants.  Clicks
      are no more than these, and fall on a page with the approved fingerprint. */
  method RunAdapter(a: Adapter, r: Request, submit: bool, page: Page, v: GateBValidator?, permit: Option<Token>, ghost began: nat)
    returns (end: Ending, ghost payload: Option<Payload>)
    requires v != null ==> v.Valid()
    modifies page, v, if v == null then {} else {v.ledger}
    ensures v != null ==> v.Valid() && old(v.ledger.events) <= v.ledger.events && old(v.grants) <= v.grants
    ensures page.granted == old(page.granted) + if v == null then 0 else |v.grants| - |old(v.grants)|
    ensures v != null && a.Alone() && old(v.Valid() && v.Steady()) && !end.Dies? ==>
      v.Steady() && v.ledger.runs == old(v.ledger.runs)
    ensures page.runs == old(page.runs) + [began]
    ensures a.Untrusted? ==> page.clicks == old(page.clicks)
    ensures 0 <= page.clicks - old(page.clicks) <= page.granted - old(page.granted)
    ensures page.clicks > old(page.clicks) ==> v != null && FallsOn(a, v.reviewHash, payload)
    ensures a.Untrusted? ==> end == a.ending
    ensures v != null && a.Alone() ==> NoOutcomesSince(v.ledger.events, |old(v.ledger.events)|)
    ensures a.Ats? ==>
      end.Dies? || (end.Returns? && end.outcome.runId == r.bundle.runId && end.outcome.jobId == r.bundle.jobId)
    ensures a.Ats? && v == null && end.Returns? ==> end.outcome.status != SubmittedVerified
    ensures a.Ats? && end.Returns? && end.outcome.status == ReviewReady ==>
      payload.Some? && ReviewHash(end.outcome) == a.sha(payload.value) && Pins(payload.value, a.script, true)
  {
    payload := None;
    page.runs := page.runs + [began];
    match a
    case Untrusted(calls, ending) =>
      if v != null {
        RunUntrusted(calls, ending, page, v);
      }
      return ending, payload;
    case Ats(base, script, sha, digest) =>
      var ctx := base.(runId := r.bundle.runId, jobId := r.bundle.jobId, requestSubmit := submit, navigate := !submit);
      var o;
      o, payload := RunGeneric(ctx, script, sha, digest, page, v, permit);
      return if o.Some? then Returns(o.value) else Dies([]), payload;
    case Driver(memory, setup, pages, death) =>
      var ctx := setup.(runId := r.bundle.runId, jobId := r.bundle.jobId, requestSubmit := submit, navigate := !submit, permit := permit);
      end := RunDriver(memory, ctx, pages, death, page, v);
  }

  /** A click falls on a page with this fingerprint: its hash pins every reading, or it is the
      fingerprint of a Workday review. */
  ghost predicate FallsOn(a: Adapter, review: string, payload: Option<Payload>) {
    match a
    case Untrusted(_, _) => false
    case Ats(_, script, sha, _) => payload.Some? && sha(payload.value) == review && Pins(payload.value, script, true)
    case Driver(_, _, pages, _) => ReviewedOn(pages, review)
  }

  /** The Workday adapter, continuing from what it keeps; the page's trace follows its run. */
  method RunDriver(memory: Workday.Memory, ctx: Workday.WorkdayContext, pages: Workday.RunScript, death: Option<seq<Event>>,
                   page: Page, v: GateBValidator?)
    returns (end: Ending)
    requires v != null ==> v.Valid()
    modifies page`clicks, page`granted, v, if v == null then {} else {v.ledger}
    ensures v != null ==> v.Valid() && old(v.ledger.events) <= v.ledger.events && old(v.grants) <= v.grants
    ensures page.granted == old(page.granted) + if v == null then 0 else |v.grants| - |old(v.grants)|
    ensures v != null && pages.Alone() && (death.Some? ==> ValidatorWrites(death.value)) ==>
      NoOutcomesSince(v.ledger.events, |old(v.ledger.events)|)
    ensures v != null && pages.Alone() && old(v.Valid() && v.Steady()) && !end.Dies? ==>
      v.Steady() && v.ledger.runs == old(v.ledger.runs)
    ensures 0 <= page.clicks - old(page.clicks) <= page.granted - old(page.granted)
    ensures page.clicks > old(page.clicks) ==> v != null && ReviewedOn(pages, v.reviewHash)
    ensures end.Dies? <==> death.Some?
  {
    var o;
    ghost var clicked, granted;
    o, clicked, granted := Restart(memory, ctx, pages, v);
    page.granted := page.granted + if granted then 1 else 0;
    page.clicks := page.clicks + if clicked then 1 else 0;
    if death.None? {
      return if o.Some? then Returns(o.value) else Raises;
    }
    if v != null {
      v.Interfere(death.value);
    }
    return Dies([]);
  }

  /** One of the reviews a Workday run may come to has this fingerprint. */
  ghost predicate ReviewedOn(pages: Workday.RunScript, review: string) {
    exists i :: pages.review(i).fingerprint == review
  }

  /** A Workday adapter and a page that go on from what the earlier runs left, and one run. */
  method Restart(memory: Workday.Memory, ctx: Workday.WorkdayContext, pages: Workday.RunScript, v: GateBValidator?)
    returns (o: Option<Outcome>, ghost clicked: bool, ghost granted: bool)
    requires v != null ==> v.Valid()
    modifies v, if v == null then {} else {v.ledger}
    ensures v != null ==> v.Valid() && old(v.ledger.events) <= v.ledger.events && old(v.grants) <= v.grants
    ensures if granted then v != null && |v.grants| == |old(v.grants)| + 1 else v == null || |v.grants| == |old(v.grants)|
    ensures v != null && pages.Alone() ==> NoOutcomesSince(v.ledger.events, |old(v.ledger.events)|)
    ensures v != null && pages.Alone() && old(v.Valid() && v.Steady()) ==> v.Steady() && v.ledger.runs == old(v.ledger.runs)
    ensures clicked ==> granted && ReviewedOn(pages, v.reviewHash)
  {
    ghost var grant;
    var adapter := new Workday.WorkdayAdapter.Continuing(memory.pending, memory.stored);
    var doc := new WorkdaySubmit.Document.Continuing(memory.locks);
    ghost var iterations, acted, steps;
    o, iterations, acted, steps, grant := adapter.Run(ctx, doc, pages, v);
    clicked, granted := Workday.HasClick(steps), grant.Some?;
    if granted {
      v.GrantFits(v.grants[|v.grants| - 1]);
      assert pages.review(grant.value).fingerprint == v.reviewHash;
    }
  }

  /** The deterministic adapter; `None` when it dies. */
  method RunGeneric(ctx: Context, s: Script, sha: Payload -> string, digest: string -> string, page: Page,
                    v: GateBValidator?, permit: Option<Token>)
    returns (o: Option<Outcome>, ghost payload: Option<Payload>)
    requires v != null ==> v.Valid()
    modifies page`locks, page`clicks, page`granted, v, if v == null then {} else {v.ledger}
    ensures v != null ==> v.Valid() && old(v.ledger.events) <= v.ledger.events && old(v.grants) <= v.grants
    ensures page.granted == old(page.granted) + if v == null then 0 else |v.grants| - |old(v.grants)|
    ensures v != null && s.Alone() ==> NoOutcomesSince(v.ledger.events, |old(v.ledger.events)|)
    ensures v != null && s.Alone() && old(v.Valid() && v.Steady()) && o.Some? ==>
      v.Steady() && v.ledger.runs == old(v.ledger.runs)
    ensures 0 <= page.clicks - old(page.clicks) <= page.granted - old(page.granted)
    ensures page.clicks > old(page.clicks) ==>
      v != null && payload.Some? && sha(payload.value) == v.reviewHash && Pins(payload.value, s, true)
    ensures o.Some? ==>
      && o.value.runId == ctx.runId && o.value.jobId == ctx.jobId
      && (v == null ==> o.value.status != SubmittedVerified)
      && (o.value.status == ReviewReady ==>
            payload.Some? && ReviewHash(o.value) == sha(payload.value) && Pins(payload.value, s, true))
  {
    ghost var earlier := if v == null then [] else v.grants;
    ghost var trace;
    o, trace, payload := Run(ctx, page, s, sha, digest, v, permit);
    if |trace| >= 3 {
      v.GrantFits(v.grants[|earlier|]);
    }
  }

  class JobApplicationEngine {
    const ledger: EventLedger

    constructor (ledger: EventLedger)
      ensures this.ledger == ledger
    {
      this.ledger := ledger;
    }

    /** Between two steps: others write, and the process may die. */
    method Pause(w: World, k: nat) returns (dead: bool)
      requires ledger.Valid()
      modifies ledger
      ensures dead == w.dies(k)
      ensures ledger.Valid() && old(ledger.events) <= ledger.events
      ensures w.Quiet() ==> ledger.events == old(ledger.events) && ledger.View() == old(ledger.View())
      ensures NoAbortsSince(ledger.events, |old(ledger.events)|) ==> KeepsActive(old(ledger.intents), ledger.intents)
    {
      ledger.Interfere(w.env(k));
      ActiveRowsPersist(old(ledger.events), ledger.events);
      return w.dies(k);
    }

    /** `_ensure_run`. */
    method EnsureRun(b: Bundle) returns (ok: bool)
      requires ledger.Valid()
      modifies ledger
      ensures ledger.Valid()
      ensures ok ==> b.runId in ledger.runs && ledger.runs[b.runId].jobId == b.jobId
      ensures ledger.events == old(ledger.events) || ledger.events == old(ledger.events) + [RunCreated(b.runId, b.jobId)]
      ensures ledger.intents == old(ledger.intents)
    {
      var created := ledger.CreateRun(b.runId, b.jobId);
      if created.Err? { return ledger.runs[b.runId].jobId == b.jobId; }
      return true;
    }

    /** `_record_outcome`: read the version, then compare and set.  `None` when it is stored. */
    method Record(w: World, k: nat, o: Outcome) returns (end: Option<Ended>, ghost recorded: set<nat>)
      requires ledger.Valid()
      modifies ledger
      ensures ledger.Valid() && Extends(old(ledger.events), ledger.events, recorded, false, w.Quiet())
      ensures end in {None, Some(Raised), Some(Died)} && (end == Some(Died) ==> w.dies(k))
      ensures recorded == if end.None? then {|ledger.events| - 1} else {}
      ensures end.None? ==>
        && |old(ledger.events)| < |ledger.events| && ledger.events[|ledger.events| - 1].RunStateChanged?
        && ledger.events[|ledger.events| - 1].runId == o.runId
        && ledger.events[|ledger.events| - 1].outcome == o
      ensures w.Quiet() ==> ledger.intents == old(ledger.intents)
      ensures w.Quiet() && !w.dies(k) ==> (end.None? <==> o.runId in old(ledger.runs))
    {
      if o.runId !in ledger.runs { return Some(Raised), {}; }
      var version := ledger.runs[o.runId].version;
      var dead := Pause(w, k);
      if dead { return Some(Died), {}; }
      var stored := ledger.CompareAndSetState(o.runId, version, o);
      if stored.Err? { return Some(Raised), {}; }
      return None, {|ledger.events| - 1};
    }

    /** Record an outcome and return it; a failing record raises instead. */
    method Finish(w: World, k: nat, o: Outcome) returns (ended: Ended, ghost recorded: set<nat>)
      requires ledger.Valid() && o.status != SubmittedVerified
      modifies ledger
      ensures ledger.Valid() && Extends(old(ledger.events), ledger.events, recorded, false, w.Quiet())
      ensures Unverified(ledger.events, |old(ledger.events)|, recorded)
      ensures ended == Raised || ended == Returned(o) || (ended == Died && w.dies(k))
      ensures ended.Returned? ==> AmongRecords(ledger.events, recorded, o)
      ensures w.Quiet() ==> ledger.intents == old(ledger.intents)
      ensures w.Quiet() && !w.dies(k) && o.runId in old(ledger.runs) ==> ended == Returned(o)
    {
      var end;
      end, recorded := Record(w, k, o);
      return if end.None? then Returned(o) else end.value, recorded;
    }

    /** `latest_review_outcome`: the newest matching event, searched from the end. */
    method LatestReviewOutcome(runId: string) returns (r: Option<Outcome>)
      ensures r == match LatestReview(ledger.events, runId)
                   case None => None
                   case Some(k) => Some(ledger.events[k].outcome)
    {
      var n := |ledger.events|;
      assert ledger.events[..n] == ledger.events;
      while n > 0
        invariant 0 <= n <= |ledger.events|
        invariant LatestReview(ledger.events, runId) == LatestReview(ledger.events[..n], runId)
      {
        assert ledger.events[..n][..n - 1] == ledger.events[..n - 1];
        if IsReview(ledger.events[n - 1], runId) {
          return Some(ledger.events[n - 1].outcome);
        }
        n := n - 1;
      }
      return None;
    }

    /** `submission_preflight`: any active intent under an identity of the posting blocks. */
    method SubmissionPreflight(b: Bundle) returns (guard: Option<Outcome>)
      ensures guard.Some? <==>
        exists i :: 0 <= i < |ledger.intents| && Active(ledger.intents[i]) && ledger.intents[i].idem.key in b.url.Candidates()
      ensures guard.Some? ==>
        && guard.value.runId == b.runId && guard.value.status != SubmittedVerified
        && (MustNotRetry(guard.value) || guard.value == Own(b, SkippedPolicy, Reason.DuplicateSubmission))
    {
      var found := FindActive(ledger.intents, b.url.Candidates());
      if found.None? { return None; }
      if ledger.intents[found.value].status == IntentStatus.Verified {
        return Some(Own(b, SkippedPolicy, Reason.DuplicateSubmission));
      }
      return Some(Own(b, SubmitUnknown, ConfirmationMissing).(details := NO_DETAILS.(doNotRetry := true)));
    }

    /** Gate A: an authorisation issued and consumed here, unless a permit was brought. */
    method PassGateA(r: Request, w: World) returns (stop: Option<Ended>)
      requires ledger.Valid()
      modifies ledger
      ensures ledger.Valid() && Extends(old(ledger.events), ledger.events, {}, false, w.Quiet())
      ensures stop in {None, Some(Raised), Some(Died)}
      ensures w.Quiet() ==> ledger.intents == old(ledger.intents) && ledger.runs == old(ledger.runs)
    {
      if r.External() { return None; }
      var consumed := ledger.ConsumePermit(Gate.GateA, r.bundle.runId, r.bundle.jobId, w.gateAJti);
      if consumed.Err? { return Some(Raised); }
      var dead := Pause(w, 5);
      if dead { return Some(Died); }
      ledger.AuthorizeGate(Gate.GateA, r.bundle.runId);
      return None;
    }

    /** The permit brought by the caller names exactly this bundle and the approved review. */
    predicate ExternalFits(r: Request) {
      && r.token.Some? && r.scoped.Some? && r.scoped.value.plan.Some? && r.requestSubmit
      && !Blank(r.scoped.value.review)
      && r.scoped.value.(plan := None) == r.bundle.PermitBindings(r.scoped.value.review)
      && r.approvedReview == r.scoped.value.review
    }

    /** The run row and the permit brought by the caller. */
    method Open(r: Request, w: World) returns (stop: Option<Ended>)
      requires ledger.Valid()
      modifies ledger
      ensures ledger.Valid() && old(ledger.events) <= ledger.events
      ensures stop in {None, Some(Raised), Some(Died)}
      ensures stop.None? && r.External() ==> ExternalFits(r)
      ensures NoAbortsSince(ledger.events, |old(ledger.events)|) ==> KeepsActive(old(ledger.intents), ledger.intents)
      ensures w.Quiet() ==> ledger.intents == old(ledger.intents) && OnlyRunAdded(old(ledger.events), ledger.events)
      ensures w.Quiet() && stop.None? ==> r.bundle.runId in ledger.runs
    {
      var dead := Pause(w, 0);
      if dead { return Some(Died); }
      var fits := EnsureRun(r.bundle);
      if !fits || (r.External() && !ExternalFits(r)) { return Some(Raised); }
      dead := Pause(w, 1);
      return if dead then Some(Died) else None;
    }

    /** The run row, the caller's permit, and the submission guard. */
    method Guard(r: Request, w: World) returns (stop: Option<Ended>, ghost recorded: set<nat>)
      requires ledger.Valid()
      modifies ledger
      ensures ledger.Valid() && Extends(old(ledger.events), ledger.events, recorded, false, w.Quiet())
      ensures Halts(ledger.events, |old(ledger.events)|, recorded, stop)
      ensures stop.None? && r.External() ==> ExternalFits(r)
      ensures NoAbortsSince(ledger.events, |old(ledger.events)|) && BlockedBy(old(ledger.intents), r.bundle.url) ==> stop.Some?
      ensures w.Quiet() ==> ledger.intents == old(ledger.intents)
      ensures w.Quiet() && stop.None? ==>
        r.bundle.runId in ledger.runs && OnlyRunAdded(old(ledger.events), ledger.events)
      ensures stop.Some? && stop.value.Returned? ==>
        MustNotRetry(stop.value.outcome) || stop.value.outcome == Own(r.bundle, SkippedPolicy, Reason.DuplicateSubmission)
    {
      recorded := {};
      stop := Open(r, w);
      if stop.Some? { return; }
      ghost var reached := ledger.events;
      BlockedStays(old(ledger.intents), ledger.intents, r.bundle.url);
      stop, recorded := RunPreflight(r, w);
      ExtendsFurther(old(ledger.events), reached, ledger.events, {}, recorded, false, w.Quiet());
      forall k | |old(ledger.events)| <= k < |reached| ensures reached[k] == ledger.events[k] {}
    }

    /** The preflight lookup, and the record of what it says. */
    method RunPreflight(r: Request, w: World) returns (stop: Option<Ended>, ghost recorded: set<nat>)
      requires ledger.Valid()
      modifies ledger
      ensures ledger.Valid() && Extends(old(ledger.events), ledger.events, recorded, false, w.Quiet())
      ensures Halts(ledger.events, |old(ledger.events)|, recorded, stop)
      ensures stop.None? <==> !BlockedBy(old(ledger.intents), r.bundle.url)
      ensures stop.None? ==> ledger.events == old(ledger.events) && ledger.View() == old(ledger.View())
      ensures w.Quiet() ==> ledger.intents == old(ledger.intents)
      ensures stop.Some? && stop.value.Returned? ==>
        MustNotRetry(stop.value.outcome) || stop.value.outcome == Own(r.bundle, SkippedPolicy, Reason.DuplicateSubmission)
    {
      recorded := {};
      var guard := SubmissionPreflight(r.bundle);
      if guard.None? { return None, recorded; }
      var ended;
      ended, recorded := Finish(w, 2, guard.value);
      return Some(ended), recorded;
    }

    /** Policy blockers, and a Gate A that nobody opened. */
    function Refusal(r: Request): (o: Option<Outcome>)
      ensures o.None? <==> !r.bundle.blocked && (r.External() || r.bundle.gateAActor != Human || r.approveGateA)
      ensures o.Some? ==> o.value.status == if r.bundle.blocked then SkippedPolicy else AwaitingGateA
    {
      if r.bundle.blocked then Some(Own(r.bundle, SkippedPolicy, PolicyDenied))
      else if !r.External() && r.bundle.gateAActor == Human && !r.approveGateA then
        Some(Own(r.bundle, AwaitingGateA, GateARequired))
      else None
    }

    /** The earlier review, read before any adapter runs; then policy and Gate A. */
    method Plan(r: Request, w: World)
      returns (stop: Option<Ended>, previous: Option<Outcome>, ghost recorded: set<nat>, ghost lookedAt: nat)
      requires ledger.Valid()
      modifies ledger
      ensures ledger.Valid() && Extends(old(ledger.events), ledger.events, recorded, false, w.Quiet())
      ensures Halts(ledger.events, |old(ledger.events)|, recorded, stop)
      ensures |old(ledger.events)| <= lookedAt <= |ledger.events|
      ensures previous == ReviewIn(ledger.events[..lookedAt], r.bundle.runId)
      ensures w.Quiet() ==> lookedAt == |old(ledger.events)|
      ensures stop.Some? && stop.value.Returned? ==> Refusal(r) == Some(stop.value.outcome)
      ensures stop.None? ==> Refusal(r).None?
      ensures w.Quiet() ==> ledger.intents == old(ledger.intents)
      ensures w.Quiet() && stop.None? ==> ledger.runs == old(ledger.runs)
    {
      recorded := {};
      var dead := Pause(w, 3);
      previous := LatestReviewOutcome(r.bundle.runId);
      ghost var seen := ledger.events;
      lookedAt := |seen|;
      assert seen[..lookedAt] == seen;
      if dead { return Some(Died), previous, recorded, lookedAt; }
      var refusal := Refusal(r);
      if refusal.Some? {
        var ended;
        ended, recorded := Finish(w, 4, refusal.value);
        stop := Some(ended);
      } else {
        stop := PassGateA(r, w);
      }
      assert ledger.events[..lookedAt] == seen;
    }

    /** The leases of the call: the run's own, and the browser's, held or brought along. */
    function Leases(r: Request, w: World): (l: Option<(Lease, Lease)>)
      ensures l.Some? ==> l.value.0.owner == r.bundle.runId && l.value.1.owner == r.bundle.runId
      ensures l.Some? && r.browserLease.Some? ==>
        l.value.1 == r.browserLease.value && AssertCurrent(w.leases, l.value.1, w.now) == Current
    {
      var runId := r.bundle.runId;
      if w.runLeaseToken.None? then None
      else
        var runLease := Lease("run:" + runId, runId, w.runLeaseToken.value);
        if r.browserLease.None? then
          if w.browserToken.None? then None
          else Some((runLease, Lease("browser:chromium", runId, w.browserToken.value)))
        else if AssertCurrent(w.leases, r.browserLease.value, w.now) == Current && r.browserLease.value.owner == runId then
          Some((runLease, r.browserLease.value))
        else None
    }

    /** Gate B for a review that was just taken. */
    predicate GateBOpen(r: Request, w: World, previous: Option<Outcome>, reviewed: Outcome) {
      var review := ReviewHash(reviewed);
      if r.External() then
        && ExternalFits(r) && r.approvedReview == review && r.scoped.value.review == review
        && reviewed.adapter == r.scoped.value.plan.value.adapterPlatform
        && Accepts(r.token.value, w.now, Gate.GateB, r.scoped.value)
      else
        r.bundle.gateBActor == Human ==>
          var earlier := if previous.Some? then ReviewHash(previous.value) else "";
          r.approvedReview != "" && earlier != "" && r.approvedReview == earlier && r.approvedReview == review
    }

    /** The first pass, without a validator, up to the Gate B decision. */
    method ReviewPass(r: Request, w: World, page: Page, previous: Option<Outcome>, ghost began: nat)
      returns (stop: Option<Ended>, approval: Option<Approval>, ghost recorded: set<nat>)
      requires ledger.Valid() && (r.External() ==> ExternalFits(r))
      modifies page, ledger
      ensures ledger.Valid() && Extends(old(ledger.events), ledger.events, recorded, false, w.Quiet())
      ensures page.clicks == old(page.clicks) && page.granted == old(page.granted)
      ensures page.runs == old(page.runs) || page.runs == old(page.runs) + [began]
      ensures Unverified(ledger.events, |old(ledger.events)|, recorded)
      ensures stop.Some? && stop.value.Returned? ==>
        AmongRecords(ledger.events, recorded, stop.value.outcome)
      ensures approval.Some? <==> stop.None?
      ensures approval.Some? ==>
        && Approved(r, previous, approval.value)
        && ReviewRecorded(ledger.events, recorded, |ledger.events|, approval.value.review, w.first, r)
      ensures w.Quiet() ==> ledger.intents == old(ledger.intents)
    {
      recorded, approval := {}, None;
      var leases := Leases(r, w);
      if leases.None? {
        stop, recorded := Stop(w, 6, Own(r.bundle, FailedRetryable, RetryableBrowserError));
        return;
      }
      var end;
      ghost var payload;
      end, payload := RunAdapter(w.first, r, false, page, null, None, began);
      if end.RaisesLeaseUnavailable? {
        stop, recorded := Stop(w, 6, Own(r.bundle, FailedRetryable, RetryableBrowserError));
        return;
      }
      if !end.Returns? { return Some(if end.Raises? then Raised else Died), approval, recorded; }
      var reviewed := if end.outcome.status == SubmittedVerified then RejectVerified(end.outcome) else end.outcome;
      stop, recorded := Stop(w, 7, reviewed);
      if stop != Some(Returned(reviewed)) || reviewed.status != ReviewReady || !r.requestSubmit { return; }
      ghost var first := recorded;
      ghost var log := ledger.events;
      stop, approval, recorded := Decide(r, w, previous, reviewed, leases.value);
      ReviewKept(old(ledger.events), log, ledger.events, first, recorded, reviewed, w.first, r, w.Quiet());
      recorded := first + recorded;
    }

    /** Later records keep the first ones, and the review among them. */
    lemma ReviewKept(start: seq<Event>, log: seq<Event>, longer: seq<Event>, first: set<nat>, later: set<nat>,
                     reviewed: Outcome, a: Adapter, r: Request, quiet: bool)
      requires Extends(start, log, first, false, quiet) && Extends(log, longer, later, false, quiet)
      requires Unverified(log, |start|, first) && Unverified(longer, |log|, later)
      requires AmongRecords(log, first, reviewed) && reviewed.status == ReviewReady && ReadBy(a, r, reviewed.runId, ReviewHash(reviewed))
      ensures Extends(start, longer, first + later, false, quiet) && Unverified(longer, |start|, first + later)
      ensures ReviewRecorded(longer, first + later, |longer|, ReviewHash(reviewed), a, r)
      ensures forall o :: AmongRecords(longer, later, o) ==> AmongRecords(longer, first + later, o)
    {
      ExtendsFurther(start, log, longer, first, later, false, quiet);
      var k :| k in first && RecordAt(log, k, reviewed);
      assert longer[k] == log[k];
    }

    method Stop(w: World, k: nat, o: Outcome) returns (stop: Option<Ended>, ghost recorded: set<nat>)
      requires ledger.Valid() && o.status != SubmittedVerified
      modifies ledger
      ensures ledger.Valid() && Extends(old(ledger.events), ledger.events, recorded, false, w.Quiet())
      ensures Halts(ledger.events, |old(ledger.events)|, recorded, stop)
      ensures stop == Some(Raised) || stop == Some(Returned(o)) || (stop == Some(Died) && w.dies(k))
      ensures w.Quiet() ==> ledger.intents == old(ledger.intents)
    {
      var ended;
      ended, recorded := Finish(w, k, o);
      return Some(ended), recorded;
    }

    /** From a recorded review to an approval or a stop. */
    method Decide(r: Request, w: World, previous: Option<Outcome>, reviewed: Outcome, leases: (Lease, Lease))
      returns (stop: Option<Ended>, approval: Option<Approval>, ghost recorded: set<nat>)
      requires ledger.Valid() && (r.External() ==> ExternalFits(r))
      requires leases.0.owner == r.bundle.runId && leases.1.owner == r.bundle.runId
      modifies ledger
      ensures ledger.Valid() && Extends(old(ledger.events), ledger.events, recorded, false, w.Quiet())
      ensures Halts(ledger.events, |old(ledger.events)|, recorded, stop)
      ensures approval.Some? <==> stop.None?
      ensures approval.Some? <==> !Blank(ReviewHash(reviewed)) && GateBOpen(r, w, previous, reviewed)
      ensures approval.Some? ==> Approved(r, previous, approval.value) && approval.value.review == ReviewHash(reviewed)
      ensures stop.Some? && stop.value.Returned? ==>
        stop.value.outcome.status == if ReviewHash(reviewed) == "" then InternalError else AwaitingGateB
      ensures w.Quiet() ==> ledger.intents == old(ledger.intents)
    {
      recorded, approval := {}, None;
      var review := ReviewHash(reviewed);
      if review == "" {
        stop, recorded := Stop(w, 8, Own(r.bundle, InternalError, InternalFault).(adapter := reviewed.adapter));
        return;
      }
      if Blank(review) { return Some(Raised), approval, recorded; }
      if !GateBOpen(r, w, previous, reviewed) {
        var waiting := Own(r.bundle, AwaitingGateB, GateBRequired).(details := NO_DETAILS.(reviewFingerprint := review));
        stop, recorded := Stop(w, 8, waiting);
        return;
      }
      var bindings := if r.External() then r.scoped.value else r.bundle.PermitBindings(review);
      var token := if r.External() then r.token.value
                   else Signed(w.gateBJti, Gate.GateB, bindings, w.now, w.now + GATE_B_TTL);
      return None, Some(Approval(review, bindings, token, leases.0, leases.1)), recorded;
    }

    /** A reservation whose outcome is not verified becomes UNKNOWN, unless it already left
        SUBMITTING; an end when the transition raises or the process dies. */
    method MarkUnknown(w: World, v: GateBValidator) returns (end: Option<Ended>)
      requires v.ledger == ledger && v.Valid() && v.intent.Some?
      modifies ledger
      ensures ledger.Valid() && Extends(old(ledger.events), ledger.events, {}, false, w.Quiet())
      ensures end in {None, Some(Raised), Some(Died)} && (end == Some(Died) ==> w.dies(20))
      ensures |old(ledger.intents)| <= |ledger.intents|
      ensures w.Quiet() && old(v.Steady()) ==> end != Some(Raised)
      ensures w.Quiet() && old(v.Steady()) && end.None? ==>
        var row := old(ledger.intents)[v.intent.value];
        ledger.intents == old(ledger.intents)[v.intent.value := row.(status := IntentStatus.Unknown)]
      ensures w.Quiet() ==> ledger.runs == old(ledger.runs)
    {
      ghost var log := ledger.events;
      var id := v.intent.value;
      if ledger.intents[id].status == IntentStatus.Submitting {
        var dead := Pause(w, 20);
        RowStays(log, ledger.events, |old(ledger.intents)|);
        if dead { return Some(Died); }
        var moved := ledger.TransitionIntent(id, IntentStatus.Submitting, IntentStatus.Unknown);
        return if moved.Ok? then None else Some(Raised);
      }
      return None;
    }

    lemma RowStays(log: seq<Event>, longer: seq<Event>, n: nat)
      requires Legal(longer) && log <= longer && n == |Replay(log).intents|
      ensures n <= |Replay(longer).intents|
    {
      assert longer[..|log|] == log;
      if n > 0 { RowsPersist(longer, |log|, n - 1); }
    }

    /** An adapter that raised: retryable only when nothing was reserved. */
    method AfterFailure(w: World, b: Bundle, v: GateBValidator) returns (o: Settled)
      requires v.ledger == ledger && v.Valid()
      modifies ledger
      ensures ledger.Valid() && Extends(old(ledger.events), ledger.events, {}, false, w.Quiet())
      ensures o.Cut? ==> o.how == Raised || (o.how == Died && w.dies(20))
      ensures o.Says? ==> o.outcome.status != SubmittedVerified && o.outcome.runId == b.runId
      ensures o.Says? && v.intent.Some? ==> MustNotRetry(o.outcome)
      ensures v.intent.None? ==> o.Says? && o.outcome.retryable
      ensures w.Quiet() && old(v.Steady()) ==> o != Cut(Raised) && (o.Says? ==> Concluded(ledger.intents, v.intent, o.outcome))
      ensures w.Quiet() ==> ledger.runs == old(ledger.runs)
      ensures |old(ledger.intents)| <= |ledger.intents|
    {
      if v.intent.None? {
        return Says(Own(b, FailedRetryable, RetryableBrowserError));
      }
      var end := MarkUnknown(w, v);
      if end.Some? { return Cut(end.value); }
      return Says(Own(b, SubmitUnknown, ConfirmationMissing).(details := NO_DETAILS.(doNotRetry := true)));
    }

    /** An adapter that returned: nothing it says is believed beyond what the validator and
        the ledger confirm. */
    method Settle(w: World, b: Bundle, v: GateBValidator, raw: Outcome) returns (o: Settled)
      requires v.ledger == ledger && v.Valid()
      modifies ledger
      ensures ledger.Valid() && Extends(old(ledger.events), ledger.events, {}, false, w.Quiet())
      ensures o.Cut? ==> o.how == Raised || (o.how == Died && (w.dies(20) || w.dies(21)))
      ensures o.Says? && v.intent.Some? ==>
        (o.outcome.status == SubmittedVerified || MustNotRetry(o.outcome)) && o.outcome.details.intent == v.intent
      ensures v.intent.None? ==> o == Says(Unreserved(b, v.error, raw))
      ensures o.Says? && o.outcome.status == SubmittedVerified ==>
        && Believed(v.error, v.succeeded, v.intent, raw)
        && VerifiedIn(ledger.events, |old(ledger.events)|, |ledger.events|, v.intent, o.outcome)
      ensures w.Quiet() && old(v.Steady()) ==>
        && o != Cut(Raised)
        && (o.Says? ==> Concluded(ledger.intents, v.intent, o.outcome))
        && (o.Says? && Believed(v.error, v.succeeded, v.intent, raw) ==> o.outcome.status == SubmittedVerified)
      ensures w.Quiet() ==> ledger.runs == old(ledger.runs)
      ensures |old(ledger.intents)| <= |ledger.intents|
    {
      var told := Heard(b, v.error, raw);
      if told.status == SubmittedVerified && (!v.succeeded || v.intent.None?) {
        told := RejectVerified(told);
      }
      if v.intent.None? { return Says(told); }
      if told.status == SubmittedVerified {
        var evidence := EligibleEvidence(told.evidence);
        if evidence.Some? {
          o := Verify(w, v, told, evidence.value);
          return;
        }
        told := RejectVerified(told);
      }
      var end := MarkUnknown(w, v);
      if end.Some? { return Cut(end.value); }
      var unknown := Own(b, SubmitUnknown, ConfirmationMissing).(
        adapter := told.adapter, evidence := told.evidence,
        details := NO_DETAILS.(doNotRetry := true, intent := v.intent, preSubmitReview := v.reviewHash));
      return Says(unknown);
    }

    /** The one way to a verified submission: the reservation moves to VERIFIED first. */
    method Verify(w: World, v: GateBValidator, told: Outcome, evidence: Evidence) returns (o: Settled)
      requires v.ledger == ledger && v.Valid() && v.intent.Some?
      requires told.status == SubmittedVerified && Eligible(evidence.kind) && evidence in told.evidence
      modifies ledger
      ensures ledger.Valid() && Extends(old(ledger.events), ledger.events, {}, false, w.Quiet())
      ensures o.Cut? ==> o.how == Raised || (o.how == Died && w.dies(21))
      ensures o.Says? ==>
        && o.outcome == told.(details := told.details.(intent := v.intent, preSubmitReview := v.reviewHash))
        && VerifiedIn(ledger.events, |old(ledger.events)|, |ledger.events|, v.intent, o.outcome)
      ensures w.Quiet() && old(v.Steady()) ==> o != Cut(Raised) && (o.Says? ==> Concluded(ledger.intents, v.intent, o.outcome))
      ensures w.Quiet() ==> ledger.runs == old(ledger.runs)
      ensures |old(ledger.intents)| <= |ledger.intents|
    {
      ghost var log := ledger.events;
      var dead := Pause(w, 21);
      RowStays(log, ledger.events, |old(ledger.intents)|);
      if dead { return Cut(Died); }
      var marked := ledger.MarkSubmissionVerified(v.intent.value, evidence);
      if marked.Err? { return Cut(Raised); }
      assert ledger.events[|ledger.events| - 1] == IntentVerified(v.intent.value, evidence);
      return Says(told.(details := told.details.(intent := v.intent, preSubmitReview := v.reviewHash)));
    }

    /** What a call's report says about the log, whoever else wrote to it. */
    ghost predicate Sound(log: seq<Event>, from: nat, r: Request, rep: Report) {
      && (rep.grants != [] ==> rep.validator != null && rep.intent.Some?)
      && (rep.validator != null ==>
            && rep.validator.bundle == r.bundle && from <= rep.validator.base
            && rep.validator.bindings.runId == r.bundle.runId && rep.validator.bindings.jobId == r.bundle.jobId
            && rep.validator.runLease.owner == r.bundle.runId && rep.validator.browserLease.owner == r.bundle.runId
            && forall i :: 0 <= i < |rep.grants| ==> rep.validator.GrantIn(log, rep.grants[i]))
      && (forall i, j :: 0 <= i < j < |rep.grants| ==> rep.grants[i].startedAt < rep.grants[j].startedAt)
      && (rep.intent.Some? ==>
            rep.intent.value < |Replay(log).intents| && Replay(log).intents[rep.intent.value].idem.key == r.bundle.url.key)
      && RecordsSound(log, from, rep.recorded, rep.intent, rep.grants != [])
    }

    /** Outcome records of a call; a verified one follows a grant and the verified intent. */
    ghost predicate RecordsSound(log: seq<Event>, from: nat, recorded: set<nat>, intent: Option<nat>, granted: bool) {
      forall k :: k in recorded ==>
        && from <= k < |log| && log[k].RunStateChanged?
        && (log[k].outcome.status == SubmittedVerified ==> granted && VerifiedIn(log, from, k, intent, log[k].outcome))
    }

    /** Later writes do not touch a report; records may be added to it. */
    lemma ReportSurvives(log: seq<Event>, longer: seq<Event>, from: nat, r: Request, rep: Report, recorded: set<nat>)
      requires Legal(longer) && log <= longer && from <= |log| && Sound(log, from, r, rep)
      requires RecordsSound(longer, |log|, recorded, rep.intent, rep.grants != [])
      ensures Sound(longer, from, r, rep.(recorded := rep.recorded + recorded))
    {
      if rep.validator != null {
        rep.validator.GrantsSurvive(log, longer, rep.grants);
      }
      if rep.intent.Some? {
        assert longer[..|log|] == log;
        RowsPersist(longer, |log|, rep.intent.value);
      }
      forall k | k in rep.recorded + recorded && longer[k].outcome.status == SubmittedVerified
        ensures VerifiedIn(longer, from, k, rep.intent, longer[k].outcome)
      {
        if k in rep.recorded {
          assert VerifiedIn(log, from, k, rep.intent, log[k].outcome);
        } else {
          assert VerifiedIn(longer, |log|, k, rep.intent, longer[k].outcome);
        }
      }
    }

    /** The second pass, with a validator, and what becomes of its result. */
    method SubmitPass(r: Request, w: World, page: Page, a: Approval, ghost began: nat) returns (ended: Ended, ghost rep: Report)
      requires ledger.Valid() && BoundTo(r, a)
      modifies page, ledger
      ensures ledger.Valid() && Extends(old(ledger.events), ledger.events, rep.recorded, rep.intent.Some? || ended == Died, w.Quiet())
      ensures Sound(ledger.events, |old(ledger.events)|, r, rep)
      ensures rep.validator != null ==> rep.validator.reviewHash == a.review
      ensures ended.Returned? ==> AmongRecords(ledger.events, rep.recorded, ended.outcome)
      ensures ended.Returned? && rep.intent.Some? ==> ended.outcome.status == SubmittedVerified || MustNotRetry(ended.outcome)
      ensures w.Quiet() && ended.Returned? ==> Concluded(ledger.intents, rep.intent, ended.outcome)
      ensures page.granted == old(page.granted) + |rep.grants|
      ensures page.runs == old(page.runs) || page.runs == old(page.runs) + [began]
      ensures old(page.clicks) <= page.clicks <= old(page.clicks) + |rep.grants|
      ensures page.clicks > old(page.clicks) ==> ClickedOnApproved(w, a.review, rep)
    {
      rep := NOTHING;
      var dead := Pause(w, 9);
      if dead { return Died, rep; }
      var v, end;
      v, end, rep := SecondPass(r, w, page, a, began, |old(ledger.events)|);
      if end.Dies? { return Died, rep; }
      ghost var log, recorded := ledger.events, {};
      ended, recorded := Conclude(r, w, v, end);
      ReportSurvives(log, ledger.events, |old(ledger.events)|, r, rep, recorded);
      ExtendsAfter(old(ledger.events), log, ledger.events, {}, recorded, rep.intent.Some?, w.Quiet());
      rep := rep.(recorded := rep.recorded + recorded);
    }

    /** The adapter with a validator of its own. */
    method SecondPass(r: Request, w: World, page: Page, a: Approval, ghost began: nat, ghost from: nat)
      returns (v: GateBValidator, end: Ending, ghost rep: Report)
      requires ledger.Valid() && BoundTo(r, a) && from <= |ledger.events|
      modifies page, ledger
      ensures fresh(v) && v.ledger == ledger && v.Valid() && v.bundle == r.bundle && v.reviewHash == a.review
      ensures Extends(old(ledger.events), ledger.events, {}, v.intent.Some? || end.Dies?, w.Quiet()) && |old(ledger.events)| <= v.base
      ensures rep == Report(v, v.grants, v.intent, {}, rep.payload)
      ensures w.Quiet() && !end.Dies? ==> v.Steady()
      ensures Sound(ledger.events, from, r, rep)
      ensures page.granted == old(page.granted) + |rep.grants| && page.runs == old(page.runs) + [began]
      ensures old(page.clicks) <= page.clicks <= old(page.clicks) + |rep.grants|
      ensures page.clicks > old(page.clicks) ==> ClickedOnApproved(w, a.review, rep)
    {
      ledger.AuthorizeGate(Gate.GateB, r.bundle.runId);
      v := new GateBValidator(ledger, r.bundle, a.review, a.bindings, a.runLease, a.browserLease);
      ghost var payload;
      end, payload := RunAdapter(w.second, r, true, page, v, Some(a.token), began);
      rep := Report(v, v.grants, v.intent, {}, payload);
    }

    /** From the end of the second pass to the recorded outcome. */
    method Conclude(r: Request, w: World, v: GateBValidator, end: Ending) returns (ended: Ended, ghost recorded: set<nat>)
      requires v.ledger == ledger && v.Valid() && !end.Dies?
      modifies ledger
      ensures ledger.Valid() && Extends(old(ledger.events), ledger.events, recorded, false, w.Quiet())
      ensures RecordsSound(ledger.events, |old(ledger.events)|, recorded, v.intent, v.grants != [])
      ensures ended.Returned? ==> AmongRecords(ledger.events, recorded, ended.outcome)
      ensures ended.Returned? && v.intent.Some? ==> ended.outcome.status == SubmittedVerified || MustNotRetry(ended.outcome)
      ensures ended == Died ==> !w.Lives()
      ensures w.Quiet() && old(v.Steady()) && ended.Returned? ==> Concluded(ledger.intents, v.intent, ended.outcome)
    {
      var o := Judge(r, w, v, end);
      if o.Cut? { return o.how, {}; }
      ghost var settled := ledger.events;
      var failed;
      failed, recorded := Record(w, 10, o.outcome);
      ExtendsFurther(old(ledger.events), settled, ledger.events, {}, recorded, false, w.Quiet());
      if failed.Some? { return failed.value, recorded; }
      if o.outcome.status == SubmittedVerified {
        VerifiedStays(settled, ledger.events, |old(ledger.events)|, v.intent, o.outcome);
      }
      return Returned(o.outcome), recorded;
    }

    /** The outcome of the second pass, whichever way it ended. */
    method Judge(r: Request, w: World, v: GateBValidator, end: Ending) returns (o: Settled)
      requires v.ledger == ledger && v.Valid() && !end.Dies?
      modifies ledger
      ensures ledger.Valid() && Extends(old(ledger.events), ledger.events, {}, false, w.Quiet())
      ensures o.Cut? ==> o.how == Raised || (o.how == Died && !w.Lives())
      ensures o.Says? && v.intent.Some? ==> o.outcome.status == SubmittedVerified || MustNotRetry(o.outcome)
      ensures o.Says? && o.outcome.status == SubmittedVerified ==>
        v.succeeded && VerifiedIn(ledger.events, |old(ledger.events)|, |ledger.events|, v.intent, o.outcome)
      ensures w.Quiet() && old(v.Steady()) && o.Says? ==> Concluded(ledger.intents, v.intent, o.outcome)
    {
      if end.Returns? {
        o := Settle(w, r.bundle, v, end.outcome);
      } else {
        o := AfterFailure(w, r.bundle, v);
      }
    }

    /** `execute`: at most one reviewed, approved and reserved submission.  Whatever the
        adapter, other workers and crashes do:
        a reserved posting is refused before any adapter pass; every returned outcome is
        recorded; a verified record follows a grant and a verified reservation; once an
        intent is reserved a returned outcome is verified or must not be retried; and a
        person's approval names a review older than this call. */
    method Execute(page: Page, r: Request, w: World) returns (ended: Ended, ghost rep: Report)
      requires ledger.Valid()
      modifies page, ledger
      ensures ledger.Valid() && Extends(old(ledger.events), ledger.events, rep.recorded, rep.intent.Some? || ended == Died, w.Quiet())
      ensures Sound(ledger.events, |old(ledger.events)|, r, rep)
      ensures ended.Returned? ==> AmongRecords(ledger.events, rep.recorded, ended.outcome)
      ensures NoAbortsSince(ledger.events, |old(ledger.events)|) && BlockedBy(old(ledger.intents), r.bundle.url) ==>
        && rep.grants == [] && page.runs == old(page.runs) && page.clicks == old(page.clicks)
        && (ended.Returned? ==>
              MustNotRetry(ended.outcome) || ended.outcome == Own(r.bundle, SkippedPolicy, Reason.DuplicateSubmission))
      ensures ended.Returned? && rep.intent.Some? ==> ended.outcome.status == SubmittedVerified || MustNotRetry(ended.outcome)
      ensures w.Quiet() && ended.Returned? ==> Concluded(ledger.intents, rep.intent, ended.outcome)
      ensures w.Quiet() && ended.Returned? && rep.intent.Some? ==> BlockedBy(ledger.intents, r.bundle.url)
      ensures rep.grants != [] ==> ReviewRecorded(ledger.events, rep.recorded, rep.validator.base, rep.validator.reviewHash, w.first, r)
      ensures r.HumanReviewed() && rep.grants != [] ==>
        rep.validator.reviewHash == r.approvedReview && HumanApproved(ledger.events, r, rep, |old(ledger.events)|, w.Quiet())
      ensures page.granted == old(page.granted) + |rep.grants| && RunsTagged(old(page.runs), page.runs, |old(ledger.events)|)
      ensures old(page.clicks) <= page.clicks <= old(page.clicks) + |rep.grants|
      ensures page.clicks > old(page.clicks) ==> rep.validator != null && ClickedOnApproved(w, rep.validator.reviewHash, rep)
      ensures page.clicks > old(page.clicks) && w.first.Ats? && w.second.Ats? && OneHash(w.first.sha, w.second.sha) ==>
        SameReadings(w.first.script, w.second.script)
      ensures page.clicks > old(page.clicks) && ended.Returned? ==>
        ended.outcome.status == SubmittedVerified || MustNotRetry(ended.outcome)
    {
      var stop, previous;
      ghost var recorded, lookedAt;
      stop, previous, recorded, lookedAt := Enter(r, w);
      if stop.Some? { return stop.value, NOTHING.(recorded := recorded); }
      ghost var entered := ledger.events;
      ended, rep := AfterPlan(page, r, w, previous, |old(ledger.events)|);
      CallStands(old(ledger.events), entered, ledger.events, r, w.first, rep, previous, lookedAt, rep.intent.Some? || ended == Died, w.Quiet());
      if page.clicks > old(page.clicks) {
        assert rep.grants != [];
        ClickedAsReviewed(ledger.events, rep.recorded, rep.validator.base, rep.validator.reviewHash, w, r, rep);
      }
      if w.Quiet() && ended.Returned? {
        StaysReserved(ledger.events, |entered|, r, rep, ended.outcome);
      }
    }

    /** What the two passes establish about the log holds for the whole call. */
    lemma CallStands(start: seq<Event>, entered: seq<Event>, log: seq<Event>, r: Request, a: Adapter, rep: Report,
                     previous: Option<Outcome>, lookedAt: nat, reserved: bool, quiet: bool)
      requires Extends(start, entered, {}, false, quiet) && Extends(entered, log, rep.recorded, reserved, quiet)
      requires Sound(log, |entered|, r, rep) && Founded(log, r, a, rep, previous)
      requires EarlierReview(entered, r.bundle.runId, previous, |start|, lookedAt, quiet)
      ensures Extends(start, log, rep.recorded, reserved, quiet) && Sound(log, |start|, r, rep)
      ensures rep.grants != [] ==> ReviewRecorded(log, rep.recorded, rep.validator.base, rep.validator.reviewHash, a, r)
      ensures r.HumanReviewed() && rep.grants != [] ==>
        rep.validator.reviewHash == r.approvedReview && HumanApproved(log, r, rep, |start|, quiet)
      ensures NoAbortsSince(log, |start|) ==> NoAbortsSince(entered, |start|)
    {
      assert {} + rep.recorded == rep.recorded;
      ExtendsFurther(start, entered, log, {}, rep.recorded, reserved, quiet);
      SoundFromEarlier(log, |start|, |entered|, r, rep);
      if r.HumanReviewed() && rep.grants != [] {
        ApprovalStands(entered, log, r, rep, previous, |start|, lookedAt, quiet);
      }
      forall k | |start| <= k < |entered| ensures entered[k] == log[k] {}
    }

    lemma SoundFromEarlier(log: seq<Event>, start: nat, from: nat, r: Request, rep: Report)
      requires start <= from && Sound(log, from, r, rep)
      ensures Sound(log, start, r, rep)
    {
      forall k | k in rep.recorded && log[k].outcome.status == SubmittedVerified
        ensures VerifiedIn(log, start, k, rep.intent, log[k].outcome)
      {
        assert VerifiedIn(log, from, k, rep.intent, log[k].outcome);
      }
    }

    /** A concluded reservation is active, so it blocks the posting. */
    lemma StaysReserved(log: seq<Event>, from: nat, r: Request, rep: Report, o: Outcome)
      requires Sound(log, from, r, rep) && Concluded(Replay(log).intents, rep.intent, o)
      ensures rep.intent.Some? ==> BlockedBy(Replay(log).intents, r.bundle.url)
    {
      if rep.intent.Some? {
        assert Active(Replay(log).intents[rep.intent.value]);
      }
    }

    /** Everything before the leases; no adapter is involved. */
    method Enter(r: Request, w: World)
      returns (stop: Option<Ended>, previous: Option<Outcome>, ghost recorded: set<nat>, ghost lookedAt: nat)
      requires ledger.Valid()
      modifies ledger
      ensures ledger.Valid() && Extends(old(ledger.events), ledger.events, recorded, false, w.Quiet())
      ensures Halts(ledger.events, |old(ledger.events)|, recorded, stop)
      ensures stop.None? ==>
        && (r.External() ==> ExternalFits(r))
        && EarlierReview(ledger.events, r.bundle.runId, previous, |old(ledger.events)|, lookedAt, w.Quiet())
      ensures NoAbortsSince(ledger.events, |old(ledger.events)|) && BlockedBy(old(ledger.intents), r.bundle.url) ==>
        && stop.Some?
        && (stop.value.Returned? ==>
              MustNotRetry(stop.value.outcome) || stop.value.outcome == Own(r.bundle, SkippedPolicy, Reason.DuplicateSubmission))
      ensures w.Quiet() ==> ledger.intents == old(ledger.intents)
    {
      previous, lookedAt := None, 0;
      stop, recorded := Guard(r, w);
      if stop.Some? { return; }
      ghost var guarded := ledger.events;
      stop, previous, recorded, lookedAt := Plan(r, w);
      ExtendsFurther(old(ledger.events), guarded, ledger.events, {}, recorded, false, w.Quiet());
      if w.Quiet() {
        ReviewIsOlder(old(ledger.events), guarded, r.bundle.runId);
        assert ledger.events[..|guarded|] == guarded;
        assert ledger.events[..|old(ledger.events)|] == old(ledger.events);
      }
    }

    /** What the approval of a call rests on: a review of this call's own, recorded before any
        permit was consumed, and for a person's approval the earlier review they named. */
    ghost predicate Founded(log: seq<Event>, r: Request, a: Adapter, rep: Report, previous: Option<Outcome>) {
      rep.grants != [] ==>
        && rep.validator != null && ReviewRecorded(log, rep.recorded, rep.validator.base, rep.validator.reviewHash, a, r)
        && (r.HumanReviewed() ==>
              && (forall i :: 0 <= i < |rep.grants| ==> rep.grants[i].call.fingerprint == r.approvedReview)
              && r.approvedReview != "" && rep.validator.reviewHash == r.approvedReview
              && previous.Some? && ReviewHash(previous.value) == r.approvedReview)
    }

    /** The records of both passes, put together. */
    lemma PassesJoin(start: seq<Event>, log: seq<Event>, longer: seq<Event>, r: Request, previous: Option<Outcome>,
                     a: Adapter, given: Approval, first: set<nat>, rep: Report)
      requires start <= log <= longer && Unverified(log, |start|, first) && Sound(longer, |log|, r, rep)
      requires Approved(r, previous, given) && ReviewRecorded(log, first, |log|, given.review, a, r)
      requires rep.validator != null ==> rep.validator.reviewHash == given.review
      ensures Sound(longer, |start|, r, rep.(recorded := first + rep.recorded))
      ensures Founded(longer, r, a, rep.(recorded := first + rep.recorded), previous)
    {
      forall k | k in first ensures longer[k] == log[k] {}
      RecordsJoin(longer, |start|, |log|, first, rep.recorded, rep.intent, rep.grants != []);
      if rep.grants != [] {
        assert rep.validator.GrantIn(longer, rep.grants[0]);
        ReviewStays(log, longer, first, first + rep.recorded, rep.validator.base, given.review, a, r);
      }
    }

    lemma RecordsJoin(log: seq<Event>, start: nat, mid: nat, first: set<nat>, later: set<nat>, intent: Option<nat>, granted: bool)
      requires start <= mid <= |log| && Unverified(log, start, first) && RecordsSound(log, mid, later, intent, granted)
      ensures RecordsSound(log, start, first + later, intent, granted)
    {
      forall k | k in later && log[k].outcome.status == SubmittedVerified ensures VerifiedIn(log, start, k, intent, log[k].outcome) {
        assert VerifiedIn(log, mid, k, intent, log[k].outcome);
      }
    }

    /** The two adapter passes. */
    method AfterPlan(page: Page, r: Request, w: World, previous: Option<Outcome>, ghost began: nat)
      returns (ended: Ended, ghost rep: Report)
      requires ledger.Valid() && (r.External() ==> ExternalFits(r))
      modifies page, ledger
      ensures ledger.Valid() && Extends(old(ledger.events), ledger.events, rep.recorded, rep.intent.Some? || ended == Died, w.Quiet())
      ensures Sound(ledger.events, |old(ledger.events)|, r, rep) && Founded(ledger.events, r, w.first, rep, previous)
      ensures ended.Returned? ==> AmongRecords(ledger.events, rep.recorded, ended.outcome)
      ensures ended.Returned? && rep.intent.Some? ==> ended.outcome.status == SubmittedVerified || MustNotRetry(ended.outcome)
      ensures w.Quiet() && ended.Returned? ==> Concluded(ledger.intents, rep.intent, ended.outcome)
      ensures page.granted == old(page.granted) + |rep.grants| && RunsTagged(old(page.runs), page.runs, began)
      ensures old(page.clicks) <= page.clicks <= old(page.clicks) + |rep.grants|
      ensures page.clicks > old(page.clicks) ==> rep.validator != null && ClickedOnApproved(w, rep.validator.reviewHash, rep)
    {
      ghost var first;
      var stop, approval;
      stop, approval, first := ReviewPass(r, w, page, previous, began);
      if stop.Some? { return stop.value, NOTHING.(recorded := first); }
      ghost var log := ledger.events;
      ended, rep := SubmitPass(r, w, page, approval.value, began);
      ExtendsFurther(old(ledger.events), log, ledger.events, first, rep.recorded, rep.intent.Some? || ended == Died, w.Quiet());
      PassesJoin(old(ledger.events), log, ledger.events, r, previous, w.first, approval.value, first, rep);
      rep := rep.(recorded := first + rep.recorded);
    }

    /** Any history: calls by anyone, for any run of one posting, with crashes inside them
        and other writers between and inside them.  The page's trace counts every yes of Gate B
        and holds every adapter run.  Gate B says yes at most once more often than somebody
        aborted a reservation, and the page is clicked no more often than that.
        Unless somebody aborts, no adapter runs for a call that began after the posting was
        reserved, by whomever, and even if the process died while reserving. */
    method ExecuteAll(page: Page, key: string, calls: seq<Call>)
      requires ledger.Valid()
      requires forall i :: 0 <= i < |calls| ==> calls[i].request.bundle.url.key == key
      modifies page, ledger
      ensures ledger.Valid() && old(ledger.events) <= ledger.events
      ensures 0 <= page.granted - old(page.granted) <= 1 + Aborts(ledger.events, key)
      ensures 0 <= page.clicks - old(page.clicks) <= page.granted - old(page.granted)
      ensures old(page.runs) <= page.runs && |page.runs| <= |old(page.runs)| + 2 * |calls|
      ensures NoAbortsSince(ledger.events, 0) ==>
        && RunsUnreserved(ledger.events, key, page.runs, |old(page.runs)|)
        && (Reserved(old(ledger.events), key) ==> page.runs == old(page.runs))
    {
      ghost var grants: seq<Grant> := [];
      for i := 0 to |calls|
        invariant ledger.Valid() && old(ledger.events) <= ledger.events
        invariant AllStarted(ledger.events, key, grants) && page.granted == old(page.granted) + |grants|
        invariant 0 <= page.clicks - old(page.clicks) <= |grants|
        invariant old(page.runs) <= page.runs && |page.runs| <= |old(page.runs)| + 2 * i
        invariant NoAbortsSince(ledger.events, 0) ==>
          && RunsUnreserved(ledger.events, key, page.runs, |old(page.runs)|)
          && (Reserved(old(ledger.events), key) ==> page.runs == old(page.runs))
      {
        ghost var before, runs := ledger.events, page.runs;
        ledger.Interfere(calls[i].gap);
        ghost var began := ledger.events;
        ghost var more := Turn(page, key, calls[i]);
        AllStartedGrows(before, began, ledger.events, key, grants, more);
        RunsGrow(before, began, ledger.events, key, runs, page.runs, |old(page.runs)|);
        ReservedStays(old(ledger.events), began, key);
        EarlierHasNoAborts(before, ledger.events);
        grants := grants + more;
      }
      GrantsAreStarts(ledger.events, key, grants);
      AtMostOneStart(ledger.events, key);
    }

    /** One call of such a history. */
    method Turn(page: Page, key: string, x: Call) returns (ghost more: seq<Grant>)
      requires ledger.Valid() && x.request.bundle.url.key == key
      modifies page, ledger
      ensures ledger.Valid() && old(ledger.events) <= ledger.events
      ensures page.granted == old(page.granted) + |more| && RunsTagged(old(page.runs), page.runs, |old(ledger.events)|)
      ensures 0 <= page.clicks - old(page.clicks) <= |more|
      ensures AllStarted(ledger.events, key, more) && forall i :: 0 <= i < |more| ==> |old(ledger.events)| <= more[i].startedAt
      ensures NoAbortsSince(ledger.events, 0) && Reserved(old(ledger.events), key) ==> page.runs == old(page.runs)
    {
      ghost var began := ledger.events;
      var ended;
      ghost var rep;
      ended, rep := Execute(page, x.request, x.world);
      GrantsStarted(ledger.events, |began|, x.request, rep);
      EarlierHasNoAborts(began, ledger.events);
      ReservationsBlock(began, x.request.bundle.url);
      return rep.grants;
    }

    lemma GrantsStarted(log: seq<Event>, from: nat, r: Request, rep: Report)
      requires Sound(log, from, r, rep)
      ensures AllStarted(log, r.bundle.url.key, rep.grants)
      ensures forall i :: 0 <= i < |rep.grants| ==> from <= rep.grants[i].startedAt
    {
      forall i | 0 <= i < |rep.grants| ensures StartAt(log, rep.grants[i].startedAt, r.bundle.url.key) && from <= rep.grants[i].startedAt {
        assert rep.validator.GrantIn(log, rep.grants[i]);
      }
    }
  }

  /** The runs of one call: two at most, each marked with the ledger's length when it began. */
  ghost predicate RunsTagged(before: seq<nat>, after: seq<nat>, began: nat) {
    before <= after && |after| <= |before| + 2 && forall k :: |before| <= k < |after| ==> after[k] == began
  }

  /** Some intent of the posting was reserved, by whomever. */
  ghost predicate Reserved(log: seq<Event>, key: string) {
    exists k :: 0 <= k < |log| && log[k].IntentCreated? && log[k].idem.key == key
  }

  /** Every adapter run from position `n` on belongs to a call that began before any
      reservation of the posting. */
  ghost predicate RunsUnreserved(log: seq<Event>, key: string, runs: seq<nat>, n: nat) {
    forall k :: n <= k < |runs| ==> runs[k] <= |log| && !Reserved(log[..runs[k]], key)
  }

  lemma RunsGrow(before: seq<Event>, began: seq<Event>, log: seq<Event>, key: string, runs: seq<nat>, more: seq<nat>, n: nat)
    requires before <= began <= log && n <= |runs| && RunsTagged(runs, more, |began|)
    requires NoAbortsSince(before, 0) ==> RunsUnreserved(before, key, runs, n)
    requires NoAbortsSince(log, 0) && Reserved(began, key) ==> more == runs
    ensures NoAbortsSince(log, 0) ==> RunsUnreserved(log, key, more, n)
  {
    EarlierHasNoAborts(before, log);
    assert log[..|began|] == began;
    forall k | n <= k < |runs| && runs[k] <= |before| ensures log[..runs[k]] == before[..runs[k]] {}
  }

  lemma ReservedStays(log: seq<Event>, longer: seq<Event>, key: string)
    requires log <= longer
    ensures Reserved(log, key) ==> Reserved(longer, key)
  {
    if Reserved(log, key) {
      var k :| 0 <= k < |log| && log[k].IntentCreated? && log[k].idem.key == key;
      assert longer[k] == log[k];
    }
  }

  lemma EarlierHasNoAborts(log: seq<Event>, longer: seq<Event>)
    requires log <= longer
    ensures NoAbortsSince(longer, 0) ==> NoAbortsSince(log, 0)
  {
    forall k | 0 <= k < |log| ensures log[k] == longer[k] {}
  }

  /** Without aborts, whoever reserved the posting blocks it: the preflight lookup finds the
      reservation in every later state. */
  lemma ReservationsBlock(log: seq<Event>, url: JobUrl)
    requires Legal(log)
    ensures NoAbortsSince(log, 0) && Reserved(log, url.key) ==> BlockedBy(Replay(log).intents, url)
  {
    if NoAbortsSince(log, 0) && Reserved(log, url.key) {
      var k :| 0 <= k < |log| && log[k].IntentCreated? && log[k].idem.key == url.key;
      PrefixLegal(log, k + 1);
      assert log[..k + 1][..k] == log[..k];
      var id := |Replay(log[..k]).intents|;
      assert Replay(log[..k + 1]).intents[id].idem == log[k].idem;
      RowsPersist(log, k + 1, id);
      AllActive(log);
      assert Active(Replay(log).intents[id]) && Replay(log).intents[id].idem.key in url.Candidates();
    }
  }

  /** One call of a history, and what others wrote before it. */
  datatype Call = Call(gap: seq<Event>, request: Request, world: World)

  /** Grants at increasing positions, each the start of a submission for the key. */
  ghost predicate AllStarted(log: seq<Event>, key: string, grants: seq<Grant>) {
    && (forall i :: 0 <= i < |grants| ==> StartAt(log, grants[i].startedAt, key))
    && (forall i, j :: 0 <= i < j < |grants| ==> grants[i].startedAt < grants[j].startedAt)
  }

  lemma AllStartedGrows(before: seq<Event>, began: seq<Event>, log: seq<Event>, key: string, earlier: seq<Grant>, later: seq<Grant>)
    requires before <= began <= log
    requires AllStarted(before, key, earlier) && AllStarted(log, key, later)
    requires forall i :: 0 <= i < |later| ==> |began| <= later[i].startedAt
    ensures AllStarted(log, key, earlier + later)
  {
    forall i | 0 <= i < |earlier| ensures StartAt(log, earlier[i].startedAt, key) {
      assert log[..earlier[i].startedAt] == before[..earlier[i].startedAt];
    }
  }

  lemma {:induction false} PositionSet(grants: seq<Grant>) returns (at: set<nat>)
    requires forall i, j :: 0 <= i < j < |grants| ==> grants[i].startedAt < grants[j].startedAt
    ensures |at| == |grants|
    ensures forall k :: k in at ==> exists i :: 0 <= i < |grants| && grants[i].startedAt == k
  {
    if grants == [] {
      at := {};
    } else {
      var n := |grants| - 1;
      var rest := PositionSet(grants[..n]);
      at := rest + {grants[n].startedAt};
    }
  }

  lemma GrantsAreStarts(log: seq<Event>, key: string, grants: seq<Grant>)
    requires AllStarted(log, key, grants)
    ensures |grants| <= Starts(log, key)
  {
    var at := PositionSet(grants);
    StartSetBound(log, key, at);
  }

  /** Nothing but a run row was added. */
  ghost predicate OnlyRunAdded(before: seq<Event>, after: seq<Event>) {
    after == before || (|after| == |before| + 1 && after[..|before|] == before && after[|before|].RunCreated?)
  }

  lemma ReviewIsOlder(before: seq<Event>, after: seq<Event>, runId: string)
    requires OnlyRunAdded(before, after)
    ensures LatestReview(after, runId) == LatestReview(before, runId)
  {
  }

  /** The person's approval: at position `lookedAt`, before any record of this call, the
      latest ready review of the run carried the approved fingerprint, and every grant is
      for that fingerprint. */
  ghost predicate HumanApprovedAt(log: seq<Event>, r: Request, rep: Report, lookedAt: nat) {
    && lookedAt <= |log|
    && ReviewIn(log[..lookedAt], r.bundle.runId).Some?
    && ReviewHash(ReviewIn(log[..lookedAt], r.bundle.runId).value) == r.approvedReview != ""
    && (forall k :: k in rep.recorded ==> lookedAt <= k)
    && (forall i :: 0 <= i < |rep.grants| ==> rep.grants[i].call.fingerprint == r.approvedReview)
  }

  /** If nobody else wrote, that review stood in the ledger before the call began. */
  ghost predicate HumanApproved(log: seq<Event>, r: Request, rep: Report, began: nat, quiet: bool) {
    && (exists lookedAt :: began <= lookedAt && HumanApprovedAt(log, r, rep, lookedAt))
    && (quiet ==> HumanApprovedAt(log, r, rep, began))
  }

  /** The review that was looked up, and where. */
  ghost predicate EarlierReview(log: seq<Event>, runId: string, previous: Option<Outcome>, began: nat, lookedAt: nat, quiet: bool) {
    && began <= lookedAt <= |log|
    && previous == ReviewIn(log[..lookedAt], runId)
    && (quiet ==> previous == ReviewIn(log[..began], runId))
  }

  lemma ApprovalStands(entered: seq<Event>, log: seq<Event>, r: Request, rep: Report, previous: Option<Outcome>,
                       began: nat, lookedAt: nat, quiet: bool)
    requires entered <= log && EarlierReview(entered, r.bundle.runId, previous, began, lookedAt, quiet)
    requires previous.Some? && ReviewHash(previous.value) == r.approvedReview != ""
    requires forall k :: k in rep.recorded ==> |entered| <= k
    requires forall i :: 0 <= i < |rep.grants| ==> rep.grants[i].call.fingerprint == r.approvedReview
    ensures HumanApproved(log, r, rep, began, quiet)
  {
    assert log[..lookedAt] == entered[..lookedAt];
    assert log[..began] == entered[..began];
    assert HumanApprovedAt(log, r, rep, lookedAt);
  }

  /** The outcome stands in one of the recorded events, under its own run. */
  ghost predicate AmongRecords(log: seq<Event>, recorded: set<nat>, o: Outcome) {
    exists k :: k in recorded && RecordAt(log, k, o)
  }

  predicate RecordAt(log: seq<Event>, k: nat, o: Outcome) {
    k < |log| && log[k].RunStateChanged? && log[k].runId == o.runId && log[k].outcome == o
  }

  /** A click falls on a page with the fingerprint that was approved. */
  ghost predicate ClickedOnApproved(w: World, review: string, rep: Report) {
    rep.grants != [] && FallsOn(w.second, review, rep.payload)
  }

  /** A success report that is believed: nothing was refused for a duplicate or a lease, the
      validator said yes, an intent stands, and the evidence is eligible. */
  predicate Believed(error: Option<ValidatorError>, succeeded: bool, intent: Option<nat>, raw: Outcome) {
    && error !in {Some(ValidatorError.DuplicateSubmission), Some(LeaseUnavailable)}
    && succeeded && intent.Some? && raw.status == SubmittedVerified && EligibleEvidence(raw.evidence).Some?
  }

  /** What the second pass is taken to have said, once the validator's refusals are heard. */
  function Heard(b: Bundle, error: Option<ValidatorError>, raw: Outcome): Outcome {
    if error == Some(ValidatorError.DuplicateSubmission) then
      Own(b, SkippedPolicy, Reason.DuplicateSubmission).(adapter := raw.adapter)
    else if error == Some(LeaseUnavailable) then
      Own(b, FailedRetryable, RetryableBrowserError).(adapter := raw.adapter)
    else raw
  }

  /** The result of a second pass that reserved nothing. */
  function Unreserved(b: Bundle, error: Option<ValidatorError>, raw: Outcome): (o: Outcome)
    ensures o.status != SubmittedVerified
  {
    if error == Some(ValidatorError.DuplicateSubmission) then
      Own(b, SkippedPolicy, Reason.DuplicateSubmission).(adapter := raw.adapter)
    else if error == Some(LeaseUnavailable) then
      Own(b, FailedRetryable, RetryableBrowserError).(adapter := raw.adapter)
    else if raw.status == SubmittedVerified then RejectVerified(raw)
    else raw
  }

  /** The reservation of the call was moved to VERIFIED on evidence of the outcome. */
  ghost predicate VerifiedIn(log: seq<Event>, from: nat, to: nat, intent: Option<nat>, o: Outcome) {
    exists k :: from <= k < to <= |log| && log[k].IntentVerified? && intent == Some(log[k].id)
                && log[k].evidence in o.evidence && Eligible(log[k].evidence.kind)
  }

  lemma VerifiedStays(log: seq<Event>, longer: seq<Event>, from: nat, intent: Option<nat>, o: Outcome)
    requires log <= longer && |log| < |longer| && VerifiedIn(log, from, |log|, intent, o)
    ensures VerifiedIn(longer, from, |longer| - 1, intent, o)
  {
  }

  /** The final state of a reservation agrees with the outcome of its call. */
  predicate Concluded(rows: seq<Intent>, intent: Option<nat>, o: Outcome) {
    intent.Some? ==>
      intent.value < |rows|
      && rows[intent.value].status == if o.status == SubmittedVerified then IntentStatus.Verified else IntentStatus.Unknown
  }

  /** Permit and leases belong to this run. */
  predicate BoundTo(r: Request, a: Approval) {
    && a.bindings.runId == r.bundle.runId && a.bindings.jobId == r.bundle.jobId
    && a.runLease.owner == r.bundle.runId && a.browserLease.owner == r.bundle.runId
  }

  /** What an approval rests on: a permit brought along for this review, or a person who
      named the review that was already the latest one before this call's adapter ran. */
  predicate Approved(r: Request, previous: Option<Outcome>, a: Approval) {
    && !Blank(a.review) && BoundTo(r, a)
    && a.bindings == (if r.External() && r.scoped.Some? then r.scoped.value else r.bundle.PermitBindings(a.review))
    && a.bindings.review == a.review
    && (r.External() ==> r.approvedReview == a.review)
    && (r.HumanReviewed() ==>
          && r.approvedReview == a.review && r.approvedReview != ""
          && previous.Some? && ReviewHash(previous.value) == r.approvedReview)
  }

  /** One of these records, before position `n`, is a ready review with this fingerprint, read
      by the first pass. */
  ghost predicate ReviewRecorded(log: seq<Event>, recorded: set<nat>, n: nat, review: string, a: Adapter, r: Request) {
    exists k :: k in recorded && k < n <= |log| && IsReviewOf(log[k], review, a, r)
  }

  ghost predicate IsReviewOf(e: Event, review: string, a: Adapter, r: Request) {
    && e.RunStateChanged? && e.outcome.status == ReviewReady && ReviewHash(e.outcome) == review
    && ReadBy(a, r, e.runId, review)
  }

  /** A review of the deterministic adapter belongs to this run, and its fingerprint is the
      hash of everything the page showed; of an untrusted one neither is known. */
  ghost predicate ReadBy(a: Adapter, r: Request, runId: string, review: string) {
    a.Ats? ==> runId == r.bundle.runId && exists p :: a.sha(p) == review && Pins(p, a.script, true)
  }

  lemma ReviewStays(log: seq<Event>, longer: seq<Event>, recorded: set<nat>, more: set<nat>, n: nat, review: string, a: Adapter, r: Request)
    requires log <= longer && recorded <= more && |log| <= n <= |longer| && ReviewRecorded(log, recorded, |log|, review, a, r)
    ensures ReviewRecorded(longer, more, n, review, a, r)
  {
    var k :| k in recorded && k < |log| && IsReviewOf(log[k], review, a, r);
    assert longer[k] == log[k];
  }

  /** When both passes are made by the deterministic adapter with one hash, a click falls on a
      page that reads, control by control, as the reviewed page did. */
  lemma ClickedAsReviewed(log: seq<Event>, recorded: set<nat>, n: nat, review: string, w: World, r: Request, rep: Report)
    requires ReviewRecorded(log, recorded, n, review, w.first, r) && ClickedOnApproved(w, review, rep)
    ensures w.first.Ats? && w.second.Ats? && OneHash(w.first.sha, w.second.sha) ==> SameReadings(w.first.script, w.second.script)
  {
    if w.first.Ats? && w.second.Ats? && OneHash(w.first.sha, w.second.sha) {
      var k :| k in recorded && k < n <= |log| && IsReviewOf(log[k], review, w.first, r);
      var p :| w.first.sha(p) == review && Pins(p, w.first.script, true);
      SameFingerprintSameReadings(w.first.sha, w.second.sha, p, rep.payload.value, w.first.script, w.second.script);
    }
  }

  /** A call that stops here has recorded what it returns, and no verified submission. */
  ghost predicate Halts(log: seq<Event>, from: nat, recorded: set<nat>, stop: Option<Ended>) {
    && Unverified(log, from, recorded)
    && (stop.None? ==> recorded == {})
    && (stop.Some? && stop.value.Returned? ==>
          AmongRecords(log, recorded, stop.value.outcome))
  }

  /** The outcome of the latest ready review of a run. */
  function ReviewIn(log: seq<Event>, runId: string): Option<Outcome> {
    match LatestReview(log, runId)
    case None => None
    case Some(k) => Some(log[k].outcome)
  }

  /** Some active reservation stands under an identity of the posting. */
  predicate BlockedBy(rows: seq<Intent>, url: JobUrl) {
    exists i :: 0 <= i < |rows| && Active(rows[i]) && rows[i].idem.key in url.Candidates()
  }

  /** Nobody aborted a reservation from position `n` on. */
  ghost predicate NoAbortsSince(log: seq<Event>, n: nat) {
    forall k :: n <= k < |log| ==> !(log[k].IntentMoved? && log[k].target == IntentStatus.Aborted)
  }

  /** Without aborts every reservation is active. */
  lemma {:induction false} AllActive(log: seq<Event>)
    requires Legal(log) && NoAbortsSince(log, 0)
    ensures forall i :: 0 <= i < |Replay(log).intents| ==> Active(Replay(log).intents[i])
  {
    if log != [] {
      AllActive(log[..|log| - 1]);
    }
  }

  /** Every active reservation is still there, and still active. */
  ghost predicate KeepsActive(before: seq<Intent>, after: seq<Intent>) {
    && |before| <= |after|
    && forall i :: 0 <= i < |before| && Active(before[i]) ==> Active(after[i]) && after[i].idem == before[i].idem
  }

  lemma BlockedStays(before: seq<Intent>, after: seq<Intent>, url: JobUrl)
    ensures KeepsActive(before, after) && BlockedBy(before, url) ==> BlockedBy(after, url)
  {
    if KeepsActive(before, after) && BlockedBy(before, url) {
      var i :| 0 <= i < |before| && Active(before[i]) && before[i].idem.key in url.Candidates();
      assert Active(after[i]);
    }
  }

  lemma ActiveRowsPersist(log: seq<Event>, longer: seq<Event>)
    requires Legal(longer) && log <= longer
    ensures NoAbortsSince(longer, |log|) ==> KeepsActive(Replay(log).intents, Replay(longer).intents)
  {
    assert longer[..|log|] == log;
    var before, after := Replay(log).intents, Replay(longer).intents;
    if |before| > 0 { RowsPersist(longer, |log|, |before| - 1); }
    forall i | 0 <= i < |before|
      ensures |before| <= |after| && after[i].idem == before[i].idem
      ensures Active(before[i])
              && (forall k :: |log| <= k < |longer| ==> longer[k] != IntentMoved(i, IntentStatus.Aborted))
              ==> Active(after[i])
    {
      RowsPersist(longer, |log|, i);
    }
  }
}
