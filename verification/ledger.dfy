/** The transactional event ledger (core/event_ledger.py).

    Every ledger write is one transaction that updates a projection and appends one
    audit event.  The model keeps both: `Replay` says what the projections must be after
    a log, and the class below shows that the in-place updates keep them equal to it.  A
    crash after any write is therefore a prefix of a log, and concurrent workers are
    interleaved in one log because transactions are serialised. */
module Ledger {
  import opened Common
  import opened Outcomes

  datatype IntentStatus = Pending | Submitting | Unknown | Verified | Aborted

  datatype Gate = GateA | GateB

  /** The columns hashed into `idempotency_key`; `key` is the application key. */
  datatype Idempotency = Idempotency(
    key: string, material: string, answer: string, review: string, policy: string)

  datatype Intent = Intent(runId: string, jobId: string, idem: Idempotency, status: IntentStatus)

  /** A posting URL: its durable identity, and the older identities it may be stored under. */
  datatype JobUrl = JobUrl(key: string, legacyKeys: set<string>) {
    function Candidates(): set<string> { {key} + legacyKeys }
  }

  datatype RunRow = RunRow(jobId: string, version: nat)

  datatype Event =
    | RunCreated(runId: string, jobId: string)
    | RunStateChanged(runId: string, version: nat, outcome: Outcome)
    | GateAuthorized(gate: Gate, runId: string)
    | PermitConsumed(gate: Gate, runId: string, jobId: string, jti: string)
    | IntentCreated(runId: string, jobId: string, idem: Idempotency)
    | IntentMoved(id: nat, target: IntentStatus)
    | IntentVerified(id: nat, evidence: Evidence)

  /** The mutable projections; an intent's id is its row number. */
  datatype Tables = Tables(runs: map<string, RunRow>, intents: seq<Intent>, permits: set<string>)

  const EMPTY := Tables(map[], [], {})

  /** The statuses covered by the unique index on the application key. */
  predicate Active(i: Intent) {
    i.status != IntentStatus.Aborted
  }

  /** The transitions `transition_submission_intent` allows. */
  predicate MoveAllowed(from: IntentStatus, to: IntentStatus) {
    match from
    case Pending => to == IntentStatus.Submitting || to == IntentStatus.Aborted
    case Submitting => to == IntentStatus.Unknown || to == IntentStatus.Aborted
    case Unknown => to == IntentStatus.Aborted
    case _ => false
  }

  /** What the database accepts: the key constraints of the schema and the status checks. */
  predicate Enabled(t: Tables, e: Event) {
    match e
    case RunCreated(runId, _) => runId !in t.runs
    case RunStateChanged(runId, version, _) => runId in t.runs && t.runs[runId].version == version
    case GateAuthorized(_, _) => true
    case PermitConsumed(_, runId, jobId, jti) =>
      runId in t.runs && t.runs[runId].jobId == jobId && jti !in t.permits
    case IntentCreated(runId, jobId, idem) =>
      && runId in t.runs && t.runs[runId].jobId == jobId
      && (forall i :: 0 <= i < |t.intents| ==> t.intents[i].idem != idem)
      && (forall i :: 0 <= i < |t.intents| && Active(t.intents[i]) ==> t.intents[i].idem.key != idem.key)
    case IntentMoved(id, target) => id < |t.intents| && MoveAllowed(t.intents[id].status, target)
    case IntentVerified(id, evidence) =>
      && id < |t.intents| && Eligible(evidence.kind)
      && t.intents[id].status in {IntentStatus.Submitting, IntentStatus.Unknown}
  }

  function Apply(t: Tables, e: Event): Tables {
    if !Enabled(t, e) then t else
    match e
    case RunCreated(runId, jobId) => t.(runs := t.runs[runId := RunRow(jobId, 0)])
    case RunStateChanged(runId, version, _) =>
      t.(runs := t.runs[runId := t.runs[runId].(version := version + 1)])
    case GateAuthorized(_, _) => t
    case PermitConsumed(_, _, _, jti) => t.(permits := t.permits + {jti})
    case IntentCreated(runId, jobId, idem) =>
      t.(intents := t.intents + [Intent(runId, jobId, idem, IntentStatus.Pending)])
    case IntentMoved(id, target) =>
      t.(intents := t.intents[id := t.intents[id].(status := target)])
    case IntentVerified(id, _) =>
      t.(intents := t.intents[id := t.intents[id].(status := IntentStatus.Verified)])
  }

  /** The projections after a log. */
  function Replay(log: seq<Event>): Tables {
    if log == [] then EMPTY else Apply(Replay(log[..|log| - 1]), log[|log| - 1])
  }

  /** A log whose every event was acceptable when it was appended. */
  predicate Legal(log: seq<Event>) {
    log != [] ==>
      Legal(log[..|log| - 1]) && Enabled(Replay(log[..|log| - 1]), log[|log| - 1])
  }

  /** The key of the intent that event `e` starts, when it starts one. */
  predicate StartsKey(t: Tables, e: Event, key: string) {
    e.IntentMoved? && e.target == IntentStatus.Submitting && e.id < |t.intents| && t.intents[e.id].idem.key == key
  }

  predicate AbortsKey(t: Tables, e: Event, key: string) {
    e.IntentMoved? && e.target == IntentStatus.Aborted && e.id < |t.intents| && t.intents[e.id].idem.key == key
  }

  /** How often submission was started, and reservations aborted, for a key. */
  function Starts(log: seq<Event>, key: string): nat {
    if log == [] then 0
    else
      var before := log[..|log| - 1];
      Starts(before, key) + if StartsKey(Replay(before), log[|log| - 1], key) then 1 else 0
  }

  function Aborts(log: seq<Event>, key: string): nat {
    if log == [] then 0
    else
      var before := log[..|log| - 1];
      Aborts(before, key) + if AbortsKey(Replay(before), log[|log| - 1], key) then 1 else 0
  }

  /** Rows of a key that were aborted, and rows that left PENDING. */
  function CountAborted(rows: seq<Intent>, key: string): nat {
    if rows == [] then 0
    else
      var last := rows[|rows| - 1];
      CountAborted(rows[..|rows| - 1], key) + if last.idem.key == key && !Active(last) then 1 else 0
  }

  function CountLeftPending(rows: seq<Intent>, key: string): nat {
    if rows == [] then 0
    else
      var last := rows[|rows| - 1];
      CountLeftPending(rows[..|rows| - 1], key)
      + if last.idem.key == key && last.status != IntentStatus.Pending then 1 else 0
  }

  predicate OneActive(rows: seq<Intent>) {
    forall i, j :: 0 <= i < j < |rows| && rows[i].idem.key == rows[j].idem.key ==>
      !Active(rows[i]) || !Active(rows[j])
  }

  lemma {:induction false} PrefixLegal(log: seq<Event>, n: nat)
    requires Legal(log) && n <= |log|
    ensures Legal(log[..n])
  {
    if n < |log| {
      PrefixLegal(log[..|log| - 1], n);
      assert log[..|log| - 1][..n] == log[..n];
    } else {
      assert log[..n] == log;
    }
  }

  /** The unique index holds after every legal log. */
  lemma {:induction false} OneActivePerKey(log: seq<Event>)
    requires Legal(log)
    ensures OneActive(Replay(log).intents)
  {
    if log != [] {
      OneActivePerKey(log[..|log| - 1]);
    }
  }

  lemma {:induction false} CountsAfterUpdate(rows: seq<Intent>, key: string, id: nat, to: IntentStatus)
    requires id < |rows|
    ensures var after := rows[id := rows[id].(status := to)];
            && CountAborted(after, key) == CountAborted(rows, key)
               - (if rows[id].idem.key == key && !Active(rows[id]) then 1 else 0)
               + (if rows[id].idem.key == key && to == IntentStatus.Aborted then 1 else 0)
            && CountLeftPending(after, key) == CountLeftPending(rows, key)
               - (if rows[id].idem.key == key && rows[id].status != IntentStatus.Pending then 1 else 0)
               + (if rows[id].idem.key == key && to != IntentStatus.Pending then 1 else 0)
  {
    var after := rows[id := rows[id].(status := to)];
    if id == |rows| - 1 {
      assert after[..|rows| - 1] == rows[..|rows| - 1];
    } else {
      CountsAfterUpdate(rows[..|rows| - 1], key, id, to);
      assert after[..|rows| - 1] == rows[..|rows| - 1][id := rows[id].(status := to)];
    }
  }

  /** Starts never exceed rows that left PENDING; aborts are exactly the aborted rows. */
  lemma {:induction false} CountsFollowRows(log: seq<Event>, key: string)
    requires Legal(log)
    ensures Starts(log, key) <= CountLeftPending(Replay(log).intents, key)
    ensures Aborts(log, key) == CountAborted(Replay(log).intents, key)
  {
    if log != [] {
      var before, e := log[..|log| - 1], log[|log| - 1];
      CountsFollowRows(before, key);
      var rows := Replay(before).intents;
      match e {
        case IntentCreated(runId, jobId, idem) =>
          var row := Intent(runId, jobId, idem, IntentStatus.Pending);
          assert (rows + [row])[..|rows|] == rows;
        case IntentMoved(id, target) => CountsAfterUpdate(rows, key, id, target);
        case IntentVerified(id, _) => CountsAfterUpdate(rows, key, id, IntentStatus.Verified);
        case _ =>
      }
    }
  }

  lemma {:induction false} LeftPendingBound(rows: seq<Intent>, key: string)
    requires OneActive(rows)
    ensures CountLeftPending(rows, key) <= CountAborted(rows, key) + 1
    ensures (forall i :: 0 <= i < |rows| && rows[i].idem.key == key ==> !Active(rows[i])) ==>
              CountLeftPending(rows, key) <= CountAborted(rows, key)
  {
    if rows != [] {
      var before := rows[..|rows| - 1];
      LeftPendingBound(before, key);
      assert forall i :: 0 <= i < |before| ==> before[i] == rows[i];
    }
  }

  /** At most once, for every interleaving and every crash point: the submission of an
      application key is started at most once more than reservations of it were aborted.
      No code of the repository aborts a reservation; a person reconciling it may. */
  lemma AtMostOneStart(log: seq<Event>, key: string)
    requires Legal(log)
    ensures Starts(log, key) <= Aborts(log, key) + 1
  {
    OneActivePerKey(log);
    CountsFollowRows(log, key);
    LeftPendingBound(Replay(log).intents, key);
  }

  /** The same at every crash point of a log. */
  lemma AtMostOneStartAfterCrash(log: seq<Event>, n: nat, key: string)
    requires Legal(log) && n <= |log|
    ensures Legal(log[..n]) && Starts(log[..n], key) <= Aborts(log[..n], key) + 1
  {
    PrefixLegal(log, n);
    AtMostOneStart(log[..n], key);
  }

  /** The log positions at which the submission of a key was started. */
  predicate StartAt(log: seq<Event>, k: nat, key: string) {
    k < |log| && StartsKey(Replay(log[..k]), log[k], key)
  }

  lemma StartsEarlier(log: seq<Event>, key: string, at: set<nat>)
    requires log != [] && forall k :: k in at ==> StartAt(log, k, key) && k != |log| - 1
    ensures forall k :: k in at ==> StartAt(log[..|log| - 1], k, key)
  {
    forall k | k in at ensures StartAt(log[..|log| - 1], k, key) {
      assert log[..|log| - 1][..k] == log[..k];
    }
  }

  /** A set of start positions is no larger than the number of starts. */
  lemma {:induction false} StartSetBound(log: seq<Event>, key: string, at: set<nat>)
    requires forall k :: k in at ==> StartAt(log, k, key)
    ensures |at| <= Starts(log, key)
  {
    if log == [] {
      assert forall k :: k !in at;
      assert at == {};
    } else {
      var n := |log| - 1;
      StartsEarlier(log, key, at - {n});
      StartSetBound(log[..n], key, at - {n});
      LastStart(log, key, n in at);
      OneMoreElement(at, n);
    }
  }

  lemma LastStart(log: seq<Event>, key: string, starts: bool)
    requires log != [] && (starts ==> StartAt(log, |log| - 1, key))
    ensures Starts(log, key) >= Starts(log[..|log| - 1], key) + if starts then 1 else 0
  {
  }

  lemma OneMoreElement(at: set<nat>, n: nat)
    ensures |at| == |at - {n}| + if n in at then 1 else 0
  {
    if n in at {
      assert at == at - {n} + {n};
    } else {
      assert at == at - {n};
    }
  }

  /** Rows are never removed and keep everything but their status; an intent that no later
      event aborts stays active. */
  lemma {:induction false} RowsPersist(log: seq<Event>, n: nat, id: nat)
    requires Legal(log) && n <= |log| && id < |Replay(log[..n]).intents|
    ensures id < |Replay(log).intents|
    ensures Replay(log).intents[id].(status := IntentStatus.Pending)
            == Replay(log[..n]).intents[id].(status := IntentStatus.Pending)
    ensures Active(Replay(log[..n]).intents[id])
            && (forall k :: n <= k < |log| ==> log[k] != IntentMoved(id, IntentStatus.Aborted))
            ==> Active(Replay(log).intents[id])
    decreases |log|
  {
    if n == |log| {
      assert log[..n] == log;
    } else {
      var before := log[..|log| - 1];
      assert before[..n] == log[..n];
      RowsPersist(before, n, id);
    }
  }

  /** The newest active intent stored under one of the keys. */
  function FindActive(rows: seq<Intent>, keys: set<string>): (r: Option<nat>)
    ensures r.Some? ==> r.value < |rows| && Active(rows[r.value]) && rows[r.value].idem.key in keys
    ensures r.None? ==> forall i :: 0 <= i < |rows| && Active(rows[i]) ==> rows[i].idem.key !in keys
  {
    if rows == [] then None
    else
      var n := |rows| - 1;
      if Active(rows[n]) && rows[n].idem.key in keys then Some(n) else FindActive(rows[..n], keys)
  }

  /** A reservation blocks its key until it is aborted: over every later log, whoever wrote
      it and wherever it was cut, a lookup by a URL of that key finds an active intent. */
  lemma ReservationKeepsBlocking(log: seq<Event>, n: nat, id: nat, url: JobUrl)
    requires Legal(log) && n <= |log| && id < |Replay(log[..n]).intents|
    requires Active(Replay(log[..n]).intents[id]) && Replay(log[..n]).intents[id].idem.key == url.key
    requires forall k :: n <= k < |log| ==> log[k] != IntentMoved(id, IntentStatus.Aborted)
    ensures FindActive(Replay(log).intents, url.Candidates()).Some?
  {
    RowsPersist(log, n, id);
    var _ := Replay(log).intents[id];
  }

  /** No outcome was recorded from position `n` on. */
  ghost predicate NoOutcomesSince(log: seq<Event>, n: nat) {
    forall k :: n <= k < |log| ==> !log[k].RunStateChanged?
  }

  /** No intent was reserved from position `n` on. */
  ghost predicate NoReservationsSince(log: seq<Event>, n: nat) {
    forall k :: n <= k < |log| ==> !log[k].IntentCreated?
  }

  datatype LedgerError =
    | RunAlreadyExists | RunNotFound | StateConflict | PermitAlreadyConsumed
    | Duplicate | RunJobMismatch | BadTransition | IneligibleEvidence

  datatype Result<+T> = Ok(value: T) | Err(error: LedgerError)

  /** The ledger object: an append-only event list and projections updated in place. */
  class EventLedger {
    var events: seq<Event>
    var runs: map<string, RunRow>
    var intents: seq<Intent>
    var permits: set<string>

    function View(): Tables
      reads this
    {
      Tables(runs, intents, permits)
    }

    /** The projections are the replay of a log of acceptable events. */
    ghost predicate Valid()
      reads this
    {
      Legal(events) && View() == Replay(events)
    }

    constructor ()
      ensures Valid() && events == []
    {
      events, runs, intents, permits := [], map[], [], {};
    }

    /** One transaction: update the projection concerned and append the event. */
    method Commit(e: Event)
      requires Valid() && Enabled(View(), e)
      modifies this
      ensures Valid() && events == old(events) + [e] && View() == Apply(old(View()), e)
    {
      match e {
        case RunCreated(runId, jobId) => runs := runs[runId := RunRow(jobId, 0)];
        case RunStateChanged(runId, version, _) =>
          runs := runs[runId := runs[runId].(version := version + 1)];
        case GateAuthorized(_, _) =>
        case PermitConsumed(_, _, _, jti) => permits := permits + {jti};
        case IntentCreated(runId, jobId, idem) =>
          intents := intents + [Intent(runId, jobId, idem, IntentStatus.Pending)];
        case IntentMoved(id, target) =>
          intents := intents[id := intents[id].(status := target)];
        case IntentVerified(id, _) =>
          intents := intents[id := intents[id].(status := IntentStatus.Verified)];
      }
      events := events + [e];
      assert events[..|events| - 1] == old(events);
    }

    /** The transactions other workers and people committed in the meantime. */
    method Interfere(others: seq<Event>)
      requires Valid()
      modifies this
      ensures Valid() && old(events) <= events
      ensures others == [] ==> events == old(events) && View() == old(View())
      ensures forall k :: |old(events)| <= k < |events| ==> events[k] in others
    {
      for i := 0 to |others|
        invariant Valid() && old(events) <= events
        invariant i == 0 ==> events == old(events) && View() == old(View())
        invariant forall k :: |old(events)| <= k < |events| ==> events[k] in others
      {
        if Enabled(View(), others[i]) {
          Commit(others[i]);
        }
      }
    }

    method CreateRun(runId: string, jobId: string) returns (r: Result<()>)
      requires Valid()
      modifies this
      ensures Valid()
      ensures r.Ok? <==> runId !in old(runs)
      ensures r == if r.Ok? then Ok(()) else Err(RunAlreadyExists)
      ensures events == if r.Ok? then old(events) + [RunCreated(runId, jobId)] else old(events)
      ensures r.Err? ==> View() == old(View())
    {
      if runId in runs { return Err(RunAlreadyExists); }
      Commit(RunCreated(runId, jobId));
      return Ok(());
    }

    /** `compare_and_set_state`: optimistic update of the run row, with its outcome event. */
    method CompareAndSetState(runId: string, expected: nat, outcome: Outcome) returns (r: Result<()>)
      requires Valid()
      modifies this
      ensures Valid()
      ensures r.Ok? <==> runId in old(runs) && old(runs)[runId].version == expected
      ensures r.Err? ==> r.error == if runId in old(runs) then StateConflict else RunNotFound
      ensures events == if r.Ok? then old(events) + [RunStateChanged(runId, expected, outcome)] else old(events)
      ensures intents == old(intents)
      ensures r.Err? ==> View() == old(View())
    {
      if runId !in runs { return Err(RunNotFound); }
      if runs[runId].version != expected { return Err(StateConflict); }
      Commit(RunStateChanged(runId, expected, outcome));
      return Ok(());
    }

    method AuthorizeGate(gate: Gate, runId: string)
      requires Valid()
      modifies this
      ensures Valid() && events == old(events) + [GateAuthorized(gate, runId)] && View() == old(View())
    {
      Commit(GateAuthorized(gate, runId));
    }

    method ConsumePermit(gate: Gate, runId: string, jobId: string, jti: string) returns (r: Result<()>)
      requires Valid()
      modifies this
      ensures Valid()
      ensures r.Ok? <==> runId in old(runs) && old(runs)[runId].jobId == jobId && jti !in old(permits)
      ensures r.Err? ==> r.error == if runId !in old(runs) then RunNotFound
                                    else if old(runs)[runId].jobId != jobId then RunJobMismatch
                                    else PermitAlreadyConsumed
      ensures events == if r.Ok? then old(events) + [PermitConsumed(gate, runId, jobId, jti)] else old(events)
      ensures intents == old(intents) && runs == old(runs)
      ensures r.Ok? ==> jti in permits
      ensures r.Err? ==> View() == old(View())
    {
      if runId !in runs { return Err(RunNotFound); }
      if runs[runId].jobId != jobId { return Err(RunJobMismatch); }
      if jti in permits { return Err(PermitAlreadyConsumed); }
      Commit(PermitConsumed(gate, runId, jobId, jti));
      return Ok(());
    }

    /** `create_submission_intent` with `allow_existing_same=False`: a row under any
        candidate identity refuses, and so do the two unique constraints. */
    method CreateSubmissionIntent(runId: string, jobId: string, url: JobUrl, idem: Idempotency)
      returns (r: Result<nat>)
      requires Valid() && idem.key == url.key
      modifies this
      ensures Valid()
      ensures r.Ok? <==>
        && runId in old(runs) && old(runs)[runId].jobId == jobId
        && (forall i :: 0 <= i < |old(intents)| ==> old(intents)[i].idem != idem)
        && (forall i :: 0 <= i < |old(intents)| && Active(old(intents)[i]) ==>
              old(intents)[i].idem.key !in url.Candidates())
      ensures r.Ok? ==> r.value == |old(intents)| && intents == old(intents) + [Intent(runId, jobId, idem, IntentStatus.Pending)]
      ensures r.Ok? ==> events == old(events) + [IntentCreated(runId, jobId, idem)]
      ensures r.Err? ==> events == old(events) && View() == old(View())
      ensures r.Err? ==> r.error == if runId !in old(runs) then RunNotFound
                                    else if old(runs)[runId].jobId != jobId then RunJobMismatch else Duplicate
      ensures runs == old(runs)
    {
      if runId !in runs { return Err(RunNotFound); }
      if runs[runId].jobId != jobId { return Err(RunJobMismatch); }
      if FindActive(intents, url.Candidates()).Some? { return Err(Duplicate); }
      if exists i :: 0 <= i < |intents| && intents[i].idem == idem { return Err(Duplicate); }
      Commit(IntentCreated(runId, jobId, idem));
      return Ok(|intents| - 1);
    }

    method TransitionIntent(id: nat, expected: IntentStatus, target: IntentStatus) returns (r: Result<()>)
      requires Valid()
      modifies this
      ensures Valid()
      ensures r.Ok? <==>
        MoveAllowed(expected, target) && id < |old(intents)| && old(intents)[id].status == expected
      ensures events == if r.Ok? then old(events) + [IntentMoved(id, target)] else old(events)
      ensures r.Ok? ==> intents == old(intents)[id := old(intents)[id].(status := target)]
      ensures r.Err? ==> r.error == BadTransition && View() == old(View())
      ensures runs == old(runs)
    {
      if !MoveAllowed(expected, target) || id >= |intents| || intents[id].status != expected {
        return Err(BadTransition);
      }
      Commit(IntentMoved(id, target));
      return Ok(());
    }

    method MarkSubmissionVerified(id: nat, evidence: Evidence) returns (r: Result<()>)
      requires Valid()
      modifies this
      ensures Valid()
      ensures r.Ok? <==>
        && Eligible(evidence.kind) && id < |old(intents)|
        && old(intents)[id].status in {IntentStatus.Submitting, IntentStatus.Unknown}
      ensures events == if r.Ok? then old(events) + [IntentVerified(id, evidence)] else old(events)
      ensures r.Ok? ==> intents == old(intents)[id := old(intents)[id].(status := IntentStatus.Verified)]
      ensures r.Err? ==> View() == old(View())
      ensures runs == old(runs)
    {
      if !Eligible(evidence.kind) { return Err(IneligibleEvidence); }
      if id >= |intents| || intents[id].status !in {IntentStatus.Submitting, IntentStatus.Unknown} {
        return Err(BadTransition);
      }
      Commit(IntentVerified(id, evidence));
      return Ok(());
    }
  }
}
