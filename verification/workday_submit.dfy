/** Submission clicks and confirmations on one Workday adapter (adapters/workday.py).

    A click adds the (run, job) pair to the pending set.  A confirmation takes it out, but only
    `run` tests and removes the pair without an await in between.  The polling loop after a
    review click does not test at all, and `verify_submission` tests, awaits a look at the
    page, and removes the pair without testing again.  Both are calls that *wait*.
    Asynchronous calls interleave between these steps; a click and the addition of its pair
    are one step, because no await separates the return of the click from the addition. */
module WorkdaySubmit {
  import opened Common

  type Pair = (string, string)

  datatype State = State(pending: set<Pair>, clicks: multiset<Pair>, verified: multiset<Pair>, waiting: map<nat, Pair>)

  const START := State({}, multiset{}, multiset{}, map[])

  datatype Step =
    | SubmitClick(pair: Pair)                  // submit
    | ReviewClick(task: nat, pair: Pair)       // _review_or_submit, before its polling loop
    | CheckBegin(task: nat, pair: Pair)        // verify_submission finds the pair pending and looks at the page
    | Confirm(task: nat)                       // a waiting call sees the confirmation and reports it
    | Lapse(task: nat)                        // a waiting call ends without one
    | CheckConfirm(pair: Pair)                 // run on a confirmation page

  function Next(s: State, step: Step): State {
    match step
    case SubmitClick(p) => s.(pending := s.pending + {p}, clicks := s.clicks + multiset{p})
    case ReviewClick(t, p) =>
      s.(pending := s.pending + {p}, clicks := s.clicks + multiset{p}, waiting := s.waiting[t := p])
    case CheckBegin(t, p) => if p in s.pending then s.(waiting := s.waiting[t := p]) else s
    case Confirm(t) => if t in s.waiting then Reported(s, t) else s
    case Lapse(t) => s.(waiting := s.waiting - {t})
    case CheckConfirm(p) =>
      if p in s.pending then s.(pending := s.pending - {p}, verified := s.verified + multiset{p}) else s
  }

  /** The pair is taken out whether or not it is still there. */
  function Reported(s: State, t: nat): State
    requires t in s.waiting
  {
    var p := s.waiting[t];
    s.(pending := s.pending - {p}, verified := s.verified + multiset{p}, waiting := s.waiting - {t})
  }

  function Fold(s: State, steps: seq<Step>): State {
    if steps == [] then s else Next(Fold(s, steps[..|steps| - 1]), steps[|steps| - 1])
  }

  function After(steps: seq<Step>): State {
    Fold(START, steps)
  }

  predicate Clicks(step: Step, p: Pair) {
    step == SubmitClick(p) || (step.ReviewClick? && step.pair == p)
  }

  predicate Waits(s: State, t: nat, p: Pair) {
    t in s.waiting && s.waiting[t] == p
  }

  predicate Confirms(s: State, step: Step, p: Pair) {
    step.Confirm? && Waits(s, step.task, p)
  }

  /** Clicks made while the pair was already pending. */
  function Overwritten(steps: seq<Step>, p: Pair): nat {
    if steps == [] then 0
    else
      var before, last := steps[..|steps| - 1], steps[|steps| - 1];
      Overwritten(before, p) + if Clicks(last, p) && p in After(before).pending then 1 else 0
  }

  /** Confirmations by waiting calls although the pair was no longer pending. */
  function Unbacked(steps: seq<Step>, p: Pair): nat {
    if steps == [] then 0
    else
      var before, last := steps[..|steps| - 1], steps[|steps| - 1];
      Unbacked(before, p) + if Confirms(After(before), last, p) && p !in After(before).pending then 1 else 0
  }

  function Pending(s: State, p: Pair): nat {
    if p in s.pending then 1 else 0
  }

  /** Conservation over every schedule: each click is verified, pending or overwritten, and
      only unbacked confirmations are not paid for by a click. */
  lemma {:induction false} Balance(steps: seq<Step>, p: Pair)
    ensures After(steps).clicks[p] + Unbacked(steps, p)
            == After(steps).verified[p] + Pending(After(steps), p) + Overwritten(steps, p)
  {
    if steps != [] {
      var before, last := steps[..|steps| - 1], steps[|steps| - 1];
      Balance(before, p);
      StepBalance(After(before), last, p);
    }
  }

  lemma StepBalance(s: State, step: Step, p: Pair)
    ensures Next(s, step).clicks[p] == s.clicks[p] + if Clicks(step, p) then 1 else 0
    ensures Next(s, step).verified[p] + Pending(Next(s, step), p) + (if Clicks(step, p) && p in s.pending then 1 else 0)
            == s.verified[p] + Pending(s, p) + (if Clicks(step, p) then 1 else 0)
               + (if Confirms(s, step, p) && p !in s.pending then 1 else 0)
  {
  }

  predicate WithinClicks(s: State, p: Pair) {
    s.verified[p] + Pending(s, p) <= s.clicks[p]
  }

  /** Verified and pending submissions stay within the clicks exactly when unbacked
      confirmations do not outnumber overwritten clicks. */
  lemma WithinClicksIff(steps: seq<Step>, p: Pair)
    ensures WithinClicks(After(steps), p) <==> Unbacked(steps, p) <= Overwritten(steps, p)
  {
    Balance(steps, p);
  }

  /** The test both kinds of waiting call leave out is all that is missing: over any schedule
      whose confirmations find their pair pending, the bound holds. */
  lemma {:induction false} RetestIsEnough(steps: seq<Step>, p: Pair)
    requires forall k :: 0 <= k < |steps| && Confirms(After(steps[..k]), steps[k], p) ==> p in After(steps[..k]).pending
    ensures Unbacked(steps, p) == 0 && WithinClicks(After(steps), p)
  {
    if steps != [] {
      var n := |steps| - 1;
      forall k | 0 <= k < n ensures steps[..n][..k] == steps[..k] {}
      RetestIsEnough(steps[..n], p);
    }
    WithinClicksIff(steps, p);
  }

  /** The calls that may still report the pair. */
  function WaitingFor(s: State, p: Pair): set<nat> {
    set t | t in s.waiting && s.waiting[t] == p
  }

  /** Only waiting calls go on, each to its confirmation or its end. */
  predicate OnlyEnds(steps: seq<Step>) {
    forall k :: 0 <= k < |steps| ==> steps[k].Confirm? || steps[k].Lapse?
  }

  /** Whatever the waiting calls will see, the bound survives exactly when it holds now and
      there is an uncounted click for each of them. */
  lemma InFlightSafeIff(s: State, p: Pair)
    ensures (forall steps :: OnlyEnds(steps) ==> WithinClicks(Fold(s, steps), p))
            <==> WithinClicks(s, p) && s.verified[p] + |WaitingFor(s, p)| <= s.clicks[p]
  {
    if WithinClicks(s, p) && s.verified[p] + |WaitingFor(s, p)| <= s.clicks[p] {
      forall steps | OnlyEnds(steps) ensures WithinClicks(Fold(s, steps), p) {
        EndsKeepWithin(s, steps, p);
      }
    } else if WithinClicks(s, p) {
      var steps := AllConfirm(s, p);
      assert OnlyEnds(steps) && !WithinClicks(Fold(s, steps), p);
    } else {
      assert OnlyEnds([]) && Fold(s, []) == s;
    }
  }

  lemma {:induction false} EndsKeepWithin(s: State, steps: seq<Step>, p: Pair)
    requires OnlyEnds(steps) && WithinClicks(s, p) && s.verified[p] + |WaitingFor(s, p)| <= s.clicks[p]
    ensures var z := Fold(s, steps); WithinClicks(z, p) && z.verified[p] + |WaitingFor(z, p)| <= z.clicks[p]
  {
    if steps != [] {
      var before, last := steps[..|steps| - 1], steps[|steps| - 1];
      EndsKeepWithin(s, before, p);
      EndStep(Fold(s, before), last, p);
    }
  }

  /** The end of a call takes it out of the waiting calls of its own pair. */
  lemma EndStep(s: State, step: Step, p: Pair)
    requires step.Confirm? || step.Lapse?
    ensures WaitingFor(Next(s, step), p) == WaitingFor(s, p) - {step.task}
    ensures |WaitingFor(Next(s, step), p)| == |WaitingFor(s, p)| - if Waits(s, step.task, p) then 1 else 0
    ensures Next(s, step).clicks == s.clicks
    ensures Next(s, step).verified[p] == s.verified[p] + if Confirms(s, step, p) then 1 else 0
    ensures Next(s, step).pending <= s.pending && (Confirms(s, step, p) ==> p !in Next(s, step).pending)
  {
    assert WaitingFor(Next(s, step), p) == WaitingFor(s, p) - {step.task};
  }

  /** The schedule in which every waiting call of the pair sees a confirmation. */
  lemma {:induction false} AllConfirm(s: State, p: Pair) returns (steps: seq<Step>)
    ensures OnlyEnds(steps) && Fold(s, steps).clicks == s.clicks
    ensures Fold(s, steps).verified[p] == s.verified[p] + |WaitingFor(s, p)|
    decreases |WaitingFor(s, p)|
  {
    if WaitingFor(s, p) == {} { return []; }
    var t :| t in WaitingFor(s, p);
    EndStep(s, Confirm(t), p);
    var rest := AllConfirm(Next(s, Confirm(t)), p);
    FoldFirst(s, Confirm(t), rest);
    return [Confirm(t)] + rest;
  }

  lemma {:induction false} FoldFirst(s: State, step: Step, rest: seq<Step>)
    ensures Fold(s, [step] + rest) == Fold(Next(s, step), rest)
  {
    var all := [step] + rest;
    if rest == [] {
      assert all == [step] && Fold(s, []) == s;
    } else {
      assert all[..|all| - 1] == [step] + rest[..|rest| - 1];
      FoldFirst(s, step, rest[..|rest| - 1]);
    }
  }

  /** The bound fails when `run` takes the pending pair while a review call of the same pair
      still polls: both report the one click as verified. */
  lemma OverlapCountsTwice(p: Pair)
    ensures var steps := [ReviewClick(0, p), CheckConfirm(p), Confirm(0)];
            After(steps).clicks[p] == 1 && After(steps).verified[p] == 2 && !WithinClicks(After(steps), p)
  {
    var a, b, c := ReviewClick(0, p), CheckConfirm(p), Confirm(0);
    assert [a, b, c] == [a] + ([b] + ([c] + []));
    FoldFirst(START, a, [b] + ([c] + []));
    FoldFirst(Next(START, a), b, [c] + []);
    FoldFirst(Next(Next(START, a), b), c, []);
  }

  /** It fails as well when two `verify_submission` calls overlap: both find the pair pending
      before either takes it out. */
  lemma OverlapChecksCountTwice(p: Pair)
    ensures var steps := [SubmitClick(p), CheckBegin(0, p), CheckBegin(1, p), Confirm(0), Confirm(1)];
            After(steps).clicks[p] == 1 && After(steps).verified[p] == 2 && !WithinClicks(After(steps), p)
  {
    var s, t := CheckStates(p);
    FoldFirst(START, SubmitClick(p), [CheckBegin(0, p)] + ([CheckBegin(1, p)] + ([Confirm(0)] + [Confirm(1)])));
    FoldFirst(Next(START, SubmitClick(p)), CheckBegin(0, p), [CheckBegin(1, p)] + ([Confirm(0)] + [Confirm(1)]));
    FoldFirst(s, CheckBegin(1, p), [Confirm(0)] + [Confirm(1)]);
    FoldFirst(t, Confirm(0), [Confirm(1)]);
    FoldOne(Next(t, Confirm(0)), Confirm(1));
    assert [SubmitClick(p), CheckBegin(0, p), CheckBegin(1, p), Confirm(0), Confirm(1)]
           == [SubmitClick(p)] + ([CheckBegin(0, p)] + ([CheckBegin(1, p)] + ([Confirm(0)] + [Confirm(1)])));
  }

  /** The states of that schedule after the first and after the second test. */
  lemma CheckStates(p: Pair) returns (s: State, t: State)
    ensures s == Next(Next(START, SubmitClick(p)), CheckBegin(0, p)) && t == Next(s, CheckBegin(1, p))
    ensures var z := Next(Next(t, Confirm(0)), Confirm(1)); z.clicks[p] == 1 && z.verified[p] == 2
  {
    s := Next(Next(START, SubmitClick(p)), CheckBegin(0, p));
    t := Next(s, CheckBegin(1, p));
    assert Waits(s, 0, p) && Waits(t, 0, p) && Waits(t, 1, p) && t.verified == multiset{};
    assert Waits(Next(t, Confirm(0)), 1, p);
  }

  lemma FoldOne(s: State, step: Step)
    ensures Fold(s, [step]) == Next(s, step)
  {
  }

  /** The step belongs to a call for this pair. */
  predicate Concerns(s: State, step: Step, p: Pair) {
    match step
    case SubmitClick(q) => q == p
    case ReviewClick(_, q) => q == p
    case CheckBegin(_, q) => q == p
    case CheckConfirm(q) => q == p
    case Confirm(t) => Waits(s, t, p)
    case Lapse(t) => Waits(s, t, p)
  }

  /** While a call waits for a pair, polling or checking, no other call takes a step for it. */
  ghost predicate Exclusive(steps: seq<Step>, p: Pair) {
    forall k, t :: 0 <= k < |steps| && Waits(After(steps[..k]), t, p) && Concerns(After(steps[..k]), steps[k], p) ==>
      steps[k] == Confirm(t) || steps[k] == Lapse(t)
  }

  /** One step of such a schedule keeps every awaited pair pending. */
  lemma StepKeepsPending(s: State, step: Step, p: Pair)
    requires forall t :: Waits(s, t, p) ==> p in s.pending
    requires forall t :: Waits(s, t, p) && Concerns(s, step, p) ==> step == Confirm(t) || step == Lapse(t)
    ensures forall t :: Waits(Next(s, step), t, p) ==> p in Next(s, step).pending
    ensures Confirms(s, step, p) ==> p in s.pending
  {
    if Confirms(s, step, p) {
      assert Waits(s, step.task, p);
    }
    forall t | Waits(Next(s, step), t, p) ensures p in Next(s, step).pending {
      if !Clicks(step, p) && !(step.CheckBegin? && step.pair == p) {
        assert Waits(s, t, p);
      }
    }
  }

  /** Calls that do not overlap for a pair never verify more than they clicked. */
  lemma {:induction false} ExclusiveWithinClicks(steps: seq<Step>, p: Pair)
    requires Exclusive(steps, p)
    ensures Unbacked(steps, p) == 0 && WithinClicks(After(steps), p)
    ensures forall t :: Waits(After(steps), t, p) ==> p in After(steps).pending
  {
    if steps != [] {
      var n := |steps| - 1;
      forall k | 0 <= k < n ensures steps[..n][..k] == steps[..k] {}
      ExclusiveWithinClicks(steps[..n], p);
      StepKeepsPending(After(steps[..n]), steps[n], p);
    }
    WithinClicksIff(steps, p);
  }

  /** The submit locks of one document; `clicked` counts its successful clicks per lock. */
  class Document {
    var locks: set<string>
    ghost var clicked: multiset<string>

    ghost predicate Valid()
      reads this
    {
      forall k :: clicked[k] <= if k in locks then 1 else 0
    }

    constructor ()
      ensures Valid() && locks == {} && clicked == multiset{}
    {
      locks, clicked := {}, multiset{};
    }

    /** A document that was already used. */
    constructor Continuing(locks: set<string>)
      ensures Valid() && this.locks == locks && clicked == multiset{}
    {
      this.locks, clicked := locks, multiset{};
    }

    /** A navigation starts a new document. */
    method Load()
      modifies this
      ensures Valid() && locks == {} && clicked == multiset{}
    {
      locks, clicked := {}, multiset{};
    }

    /** `_click_submit_once`: the lock is taken before the click and never returned, so a
        lock key gives at most one successful click. */
    method ClickSubmitOnce(key: string, answers: bool, works: bool) returns (ok: bool)
      requires Valid()
      modifies this
      ensures Valid() && old(locks) <= locks
      ensures ok <==> answers && works && key !in old(locks)
      ensures clicked == old(clicked) + if ok then multiset{key} else multiset{}
      ensures ok ==> clicked[key] == 1
    {
      if !answers || key in locks { return false; }
      locks := locks + {key};
      if works {
        clicked := clicked + multiset{key};
      }
      return works;
    }
  }
}
