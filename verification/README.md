# Verification of the job-application engine

This project models the parts of the system that must not go wrong when an application is
sent: the submission protocol of the run engine and the adapters it drives, the run
orchestrator and the bundle assembler above it, and three loop algorithms (answer
preparation, upload planning, fact writing). It proves properties of these models for all
inputs, all page behaviours, all interleavings of ledger transactions and all crash points
that the models describe. `dafny verify dfyconfig.toml` checks the whole project.

## How the model is built

- **Ledger** (`ledger.dfy`). Every ledger write is one transaction that updates a table and
  appends one event. The class keeps the tables and the event list in step (`Valid` says the
  tables are the replay of the list). Concurrent workers are other events in the same list;
  a crash is a prefix of it. At-most-once is a theorem about every legal list.
- **Gate B** (`gate_b.dfy`). The closure handed to the adapter: arguments, leases and permit
  are checked, then permit, reservation and start are written. A *grant* records where in
  the event list the three writes behind one `True` stand.
- **Generic adapter** (`ats_protocol.dfy`) and **Workday adapter** (`workday.dfy`,
  `workday_identity.dfy`, `workday_submit.dfy`). The page is a script of readings, so every
  page behaviour is some script. Text normalisation and SHA-256 are function parameters.
- **Engine** (`engine.dfy`). `execute` against a *world*: what others write before each own
  ledger write, where the process dies, which leases are free, and what the adapter does. An
  untrusted adapter may call the validator any number of times with any arguments, return
  any outcome, raise, or die in the middle of a validator call. The generic adapter may die
  after any of its stages, or in its validator call; the Workday adapter goes on from
  whatever earlier runs left in it; the engine may die before each of its own writes. The
  page keeps a trace: every yes of Gate B and every click of the two adapters is counted,
  and every adapter run is entered with the length of the ledger when its call began.
- **Assembler** (`assembly.dfy`). A call is cut into its steps (listing, look at an envelope,
  record, envelope); a schedule interleaves the steps of any calls, and a call may die
  between two steps or in the middle of a write.
- **Orchestrator** (`orchestrator.dfy`), **answers** (`answers.dfy`), **uploads**
  (`upload.dfy`), **fact writer** (`fact_writer.dfy`).

Time is an integer, a digest is the content it is computed from (or an injective function
parameter), identifiers made by digests are their content, and JSON text round-trips.

## What was found

- A confirmed attestation becomes an answer only for a boolean key: for every other type the
  constructor of the answer raises, because attestation-typed keys accept no value
  (`Answers.Raises`, exact in `Answers.PrepareAnswers`). A decline default raises in the same
  way on boolean and attestation keys.
- An instruction that forbids a key does not stop the attestation branch, which comes first.
  A forbidden key is answered exactly when it is boolean and has a confirmed attestation
  (`Answers.ForbiddenAnsweredIff`; such an input is `Answers.PrepareForbiddenRelocation`).
  `PlanScopedApplicationAttestation.create` refuses keys of every other than the attestation
  type; while attestations are made by it, a forbidden key is never answered
  (`Answers.ForbiddenNeverAnswered`).
- A terminal run replays only while it is the latest run of its assembly: a later run under
  another binding hides it and the stages are called again
  (`Orchestrator.OtherBindingHidesTerminal`; exact in `Orchestrator.RunApplicationExecution`).
- An exception leaves `run_application_execution` exactly when a stage's response has a plain
  string for its status where the value of a member is read, or a foreign "uncertain" status
  on the last stage, or a status text or a recorded reason that is blank or too long
  (`Orchestrator.EscapesIff`, inputs in `Orchestrator.UntypedEscapes`). No result of the
  stages' own services does any of this (`Orchestrator.TypedNeverEscapes`).
- A record saved without its envelope makes every identical assembly that begins later fail
  for good; no retry and no other call recovers it (`Assembly.OrphanFailsForGood`, and when
  it happens `Assembly.RecordedOrOrphaned`). An identical call that runs between the record
  and the envelope of a healthy one fails in the same way (`Assembly.HealthyTwinFails`).
- The assembler compares every hashed field of the factory's bundle with the prepared inputs
  except the tier of the job. Overlapping assemblies of one preparation and context leave two
  records exactly when their factories chose different tiers (`Assembly.UniqueIff`, a
  schedule in `Assembly.TwoRecords`, concrete calls in `Assembly.ExampleSplits`).
- On one Workday adapter, overlapping calls for the same run and job can report one click as
  verified twice, for two reasons: the polling loop does not look whether the click is still
  pending (`WorkdaySubmit.OverlapCountsTwice`), and `verify_submission` looks before it awaits
  the page and not again afterwards (`WorkdaySubmit.OverlapChecksCountTwice`). Looking again
  is all that is missing (`WorkdaySubmit.RetestIsEnough`).
- A backup torn by a crash blocks every later change of the projection, for every key, and
  the same content confirmed at another time conflicts with its own history
  (`FactWriter.FactStore.Write`, `FactWriter.FactStore.WriteAll`).
- `validate` of the generic adapter drops empty labels, so an unlabelled required control
  that is missing does not make it fail; the binding check of the review still does
  (`AtsProtocol.Validate`, `AtsProtocol.PrepareReview`).

## Model

| member | source | states |
|---|---|---|
| Outcomes.EligibleEvidence | core/application_engine.py:776-785 | it finds a piece of submission evidence exactly when the outcome carries one |
| Ledger.AtMostOneStart | core/event_ledger.py:913-1100 | in every legal history of the ledger, submissions of one application key are started at most once more than reservations of it were aborted |
| Ledger.AtMostOneStartAfterCrash | core/event_ledger.py:562-573 | the same holds after every prefix, that is, after a crash between any two transactions |
| Ledger.OneActivePerKey | core/event_ledger.py:636-639 | the unique index: two rows of one key are never both active |
| Ledger.CountsFollowRows | core/event_ledger.py:1051-1100 | starts are bounded by rows that left PENDING, aborts equal the aborted rows |
| Ledger.RowsPersist | core/event_ledger.py:1051-1178 | reservations are never removed, keep everything but their status, and stay active unless aborted |
| Ledger.ReservationKeepsBlocking | core/application_engine.py:146-165 | after a reservation, over every later history without an abort of it, the preflight lookup for that posting finds an active reservation |
| Ledger.StartSetBound | core/event_ledger.py:1101-1107 | a set of start positions is no larger than the number of starts |
| Ledger.FindActive | core/event_ledger.py:1023-1049 | the lookup finds an active row under one of the identities, and none only if there is none |
| Ledger.EventLedger.Commit | core/event_ledger.py:562-573 | one transaction changes tables and event list together and keeps the tables equal to the replay of the list |
| Ledger.EventLedger.CreateRun | core/event_ledger.py:742-785 | a run row is created exactly when the run does not exist |
| Ledger.EventLedger.CompareAndSetState | core/event_ledger.py:807-865 | an outcome is recorded exactly when the expected version is current; otherwise nothing changes |
| Ledger.EventLedger.ConsumePermit | core/event_ledger.py:1202-1250 | a permit is consumed once, for its own run and job; a second consumption is refused |
| Ledger.EventLedger.CreateSubmissionIntent | core/event_ledger.py:913-1012 | a reservation is made exactly when no active row stands under any identity of the posting and the idempotency key is new |
| Ledger.EventLedger.TransitionIntent | core/event_ledger.py:1051-1099 | a row moves exactly from the expected status along an allowed edge |
| Ledger.EventLedger.MarkSubmissionVerified | core/event_ledger.py:1115-1178 | VERIFIED only from SUBMITTING or UNKNOWN and only with eligible evidence |
| GateB.GateBValidator.Validate | core/application_engine.py:620-674 | True only for an admissible call (binding, both leases, permit), with a new grant whose reservation now stands at SUBMITTING; otherwise no grant, and a refusal names the first failing check |
| GateB.GateBValidator.Consume | core/application_engine.py:644-648 | the permit is consumed in the log, or the call is refused or raises without a reservation |
| GateB.GateBValidator.Reserve | core/application_engine.py:649-662 | the reservation is durably in the log and published in the box; a duplicate is refused |
| GateB.GateBValidator.Start | core/application_engine.py:663-665 | the start is durably in the log after permit and reservation, and only then a grant exists |
| GateB.GateBValidator.StartNow | core/application_engine.py:663-665 | the transition succeeds exactly for a pending reservation, and then a grant is added behind all earlier ones |
| GateB.GateBValidator.NewGrant | core/application_engine.py:644-665 | permit, reservation and start in this order make a grant, and earlier grants stay |
| GateB.GateBValidator.GrantSurvives | core/application_engine.py:620-666 | later ledger writes never invalidate what a grant says about the log |
| Engine.JobApplicationEngine.Execute | core/application_engine.py:336-858 | for a posting with an active reservation, unless somebody aborts one during the call, no adapter runs at all, and the refusal is returned; every returned outcome is recorded, and without other writers nothing else is, and nothing is reserved unless the call reports it or died; verified records follow a grant and the verified reservation; the grants are all the times Gate B said yes; a grant follows a ready review of this very call with the approved fingerprint, and for a person's approval also an earlier review with it; after a reservation (and after any click) a returned outcome is verified or must not be retried; clicks never exceed grants and fall on a page with the approved fingerprint; when both passes are made by the generic adapter under one injective hash, a click falls on a page that reads as the recorded review of this run did |
| Engine.JobApplicationEngine.ExecuteAll | core/application_engine.py:336-858 | over any history of calls for one posting, with other writers and with crashes before every write and inside every adapter pass, Gate B says yes at most 1 + aborts times, counted over every answer it gave, and the adapters that click do so no more often; without aborts, every adapter run belongs to a call that began before the posting was reserved, by whomever and even if the process died while reserving |
| Engine.JobApplicationEngine.Turn | core/application_engine.py:336-858 | one call of such a history: its yes answers are distinct new starts, it runs adapters at most twice, and not at all once the posting was reserved without aborts |
| Engine.JobApplicationEngine.SubmissionPreflight | core/application_engine.py:146-194 | the guard fires exactly when an active reservation stands under an identity of the posting, and its outcome is a duplicate skip or must not be retried |
| Engine.JobApplicationEngine.LatestReviewOutcome | core/application_engine.py:257-270 | the newest ready review of the run, searched from the end |
| Engine.LatestReview | core/application_engine.py:257-270 | the position found holds a ready review and no later position does |
| Engine.JobApplicationEngine.EnsureRun | core/application_engine.py:104-114 | afterwards the run exists for this job, and nothing else changed |
| Engine.JobApplicationEngine.Record | core/application_engine.py:116-124 | the outcome is the last event when it succeeds; without interference or death it succeeds exactly for a known run; nothing is written when the process dies before it |
| Engine.JobApplicationEngine.Open | core/application_engine.py:365-402 | a caller's permit that does not bind this bundle and review raises; active reservations are kept |
| Engine.JobApplicationEngine.Guard | core/application_engine.py:403-406 | a blocked posting stops here, with the guard's outcome recorded |
| Engine.JobApplicationEngine.RunPreflight | core/application_engine.py:403-406 | the call goes on, without a write, exactly when no active reservation blocks the posting |
| Engine.JobApplicationEngine.Refusal | core/application_engine.py:416-444 | the call goes on exactly when policy does not block it and Gate A is open |
| Engine.JobApplicationEngine.Plan | core/application_engine.py:407-462 | the earlier review is the one in the log before any adapter ran; policy and Gate A refusals are recorded and returned |
| Engine.JobApplicationEngine.PassGateA | core/application_engine.py:446-462 | the authorisation is consumed in the ledger, or the call raises |
| Engine.JobApplicationEngine.Leases | core/application_engine.py:468-501 | both leases belong to the run; a lease brought along is current |
| Engine.JobApplicationEngine.ReviewPass | core/application_engine.py:468-599 | the first pass never clicks, is never told yes and never records a verified submission; only an approved review goes on, and it is the ready review just recorded, of this run and read from the page when the generic adapter made it |
| Engine.JobApplicationEngine.Decide | core/application_engine.py:538-604 | approval exactly when the fingerprint is not blank and Gate B is open for it; otherwise the stop that fits is recorded |
| Engine.JobApplicationEngine.Settle | core/application_engine.py:742-843 | a success report is believed only with an undisputed grant, a reservation and eligible evidence; with a reservation everything else becomes a non-retryable unknown; without one the outcome is exactly the overridden report |
| Engine.JobApplicationEngine.Verify | core/application_engine.py:776-799 | the reservation moves to VERIFIED before the outcome is believed; a process that dies before it leaves nothing |
| Engine.JobApplicationEngine.AfterFailure | core/application_engine.py:701-740 | an adapter exception is retryable only when nothing was reserved; otherwise the reservation ends UNKNOWN |
| Engine.JobApplicationEngine.MarkUnknown | core/application_engine.py:800-803 | a reservation at SUBMITTING becomes UNKNOWN, unless the transition raises or the process dies |
| Engine.JobApplicationEngine.Conclude | core/application_engine.py:676-846 | the recorded outcome of the second pass satisfies the verified-record rule and agrees with the final state of the reservation |
| Engine.JobApplicationEngine.SecondPass | core/application_engine.py:601-700 | every grant of the pass stands in the log after the pass began, and the grants are all the yes answers of the pass; clicks never exceed grants and fall on the approved fingerprint; the adapter ran once |
| Engine.JobApplicationEngine.PassesJoin | core/application_engine.py:468-846 | the records of both passes together satisfy the rules of a call, and its grants rest on the review recorded before them |
| Engine.RunAdapter | core/application_engine.py:676-700 | one run is entered in the page's trace; whatever the adapter does and wherever it dies, grants only accumulate and stay true, and their number grows by exactly the yes answers given; clicks never exceed those answers and fall on a page with the approved fingerprint |
| Engine.RunUntrusted | core/application_engine.py:620-700 | an adapter that calls the validator as it likes, and dies where it likes, adds exactly one true grant for each yes it is given and never records an outcome |
| Engine.RunGeneric | adapters/protocol.py:705-845 | the generic adapter as an adapter of the engine: one yes answer per grant, no more clicks than that, and a click falls on readings whose hash is the approved one |
| Engine.RunDriver | adapters/workday.py:666-872 | the Workday adapter, from any memory of earlier runs, as an adapter of the engine: one yes answer per grant, no more clicks than that, and a click only for a review of its own with the approved fingerprint |
| Engine.JobApplicationEngine.ReportSurvives | core/application_engine.py:336-858 | later writes keep everything a call's report says |
| Engine.GrantsAreStarts | core/application_engine.py:663-665 | distinct grants are distinct starts in the log |
| Engine.ActiveRowsPersist | core/application_engine.py:146-165 | without aborts, every active reservation stays active |
| Engine.AllActive | core/event_ledger.py:1051-1099 | in a history without aborts every reservation is active |
| Engine.ReservationsBlock | core/application_engine.py:146-165 | in a history without aborts, any reservation of the posting, by whomever, makes the preflight lookup find an active one |
| Engine.ApprovalStands | core/application_engine.py:574-594 | a human approval rests on a review recorded before this call's own records; the fresh one is in Execute |
| Engine.ClickedAsReviewed | adapters/protocol.py:616-636 | when both passes are made by the generic adapter under one injective hash, the page clicked on reads as the recorded review, control by control |
| AtsProtocol.Fill | adapters/protocol.py:431-565 | exactly the attempted controls the page accepted are reported; every required control that was not filled is reported unresolved |
| AtsProtocol.Validate | adapters/protocol.py:567-594 | valid exactly when the fill left nothing open and every required control reads as populated, except unlabelled ones |
| AtsProtocol.ReviewBindingDigests | adapters/protocol.py:930-1019 | no error exactly when every control agrees with its verified value or bytes; the read-backs are what was read, in form order |
| AtsProtocol.PrepareReview | adapters/protocol.py:596-656 | ready exactly when the page is, and the hashed payload holds every reading |
| AtsProtocol.ReadyMeansAgreement | adapters/protocol.py:930-1085 | a ready review means every required, filled or uploaded control was freshly read and shows its verified value or holds its verified bytes |
| AtsProtocol.SameFingerprintSameReadings | adapters/protocol.py:616-636 | two ready reviews with one fingerprint, taken by one injective hash, show the same readings, control by control |
| AtsProtocol.VerifySubmission | adapters/protocol.py:685-703 | verified exactly when a visible element or the URL confirms |
| AtsProtocol.Submit | adapters/protocol.py:658-683 | one click per lock key and document, and none when the lock is taken |
| AtsProtocol.AskValidator | adapters/shared.py:339-371 | without a validator or a permit the answer is no; yes comes with one grant for this very fingerprint |
| AtsProtocol.Ask | adapters/protocol.py:788-801 | an answer for this very review, or death inside the call without a grant |
| AtsProtocol.Prepare | adapters/protocol.py:705-769 | an early outcome, or a ready review; ready exactly when the page is |
| AtsProtocol.Authorize | adapters/protocol.py:771-801 | a prior confirmation stops before the validator; permission means one grant for the fingerprint, also when the process dies right after it |
| AtsProtocol.ClickAndVerify | adapters/protocol.py:803-836 | the result is determined by whether the click lands and a confirmation shows; a process that dies after the click has clicked |
| AtsProtocol.SubmitReviewed | adapters/protocol.py:771-836 | verified exactly when all stages were passed in order with one click; no outcome exactly when the process died after the stages passed |
| AtsProtocol.Run | adapters/protocol.py:705-845 | the stages are a prefix of review, no prior confirmation, permit, click, evidence, and death can follow each of them; verified exactly for the whole of it; one yes answer and grant and one click at most; a ready review carries the fingerprint of the hashed payload; retryable exactly for the caught failures |
| WorkdayIdentity.NormalizeIdempotent | adapters/workday.py:2397-2399 | path normalisation is idempotent and keeps the segments |
| WorkdayIdentity.SegmentsOfJoin | adapters/workday.py:2397-2399 | joining and splitting a path are inverse |
| WorkdayIdentity.SegmentsOfConcat | adapters/workday.py:2397-2399 | splitting distributes over a boundary that is a slash |
| WorkdayIdentity.PrefixIffSegments | adapters/workday.py:2471-2474 | the string prefix comparison is exactly the prefix relation on segments |
| WorkdayIdentity.MatchIff | adapters/workday.py:2459-2478 | without requisition ids on both sides, a page matches exactly when origins agree and the posting path is a segment-wise prefix |
| WorkdayIdentity.SelfMatch | adapters/workday.py:2417-2478 | every URL with an identity matches itself |
| WorkdayIdentity.ApplyKeepsPath | adapters/workday.py:2430-2450 | appending /apply and further segments keeps the posting path |
| WorkdayIdentity.ApplicationPagesMatch | adapters/workday.py:2417-2478 | every application page of a posting matches it |
| WorkdayIdentity.OtherPostingMismatches | adapters/workday.py:2459-2478 | a posting page outside the requested path on the same or another origin is a mismatch |
| WorkdaySubmit.Balance | adapters/workday.py:632-664 | over every schedule, clicks plus unbacked confirmations equal verified plus pending plus overwritten clicks; confirmations come from the polling loop, from verify_submission after its await, and from run |
| WorkdaySubmit.WithinClicksIff | adapters/workday.py:640-664 | verified and pending stay within the clicks exactly when unbacked confirmations do not outnumber overwritten clicks |
| WorkdaySubmit.InFlightSafeIff | adapters/workday.py:1350-1358 | in any state, the bound survives whatever the waiting calls will see exactly when it holds and there is an uncounted click for each of them |
| WorkdaySubmit.RetestIsEnough | adapters/workday.py:646-660 | over any schedule whose confirmations find their pair pending, the bound holds |
| WorkdaySubmit.ExclusiveWithinClicks | adapters/workday.py:640-664 | calls of which none steps in for a run and job while another polls or checks for it never verify more than they clicked |
| WorkdaySubmit.OverlapCountsTwice | adapters/workday.py:1350-1358 | a schedule in which one click is verified twice, by run and by a polling call |
| WorkdaySubmit.OverlapChecksCountTwice | adapters/workday.py:645-660 | a schedule in which one click is verified twice, by two overlapping verify_submission calls |
| WorkdaySubmit.Document.ClickSubmitOnce | adapters/workday.py:2060-2076 | a lock key gives at most one successful click per document |
| Workday.FillWorkdayFields | adapters/workday.py:1607-1726 | nothing is left open exactly when every required control was read back, or is a later radio of a group; exactly the matching read-backs are recorded |
| Workday.WorkdayAdapter.CompleteStage | adapters/workday.py:1150-1218 | Next is clicked only with every required control bound and re-validated, and then remembered |
| Workday.WorkdayAdapter.Remember | adapters/workday.py:594-606 | new bindings replace old ones of the same control and nothing else |
| Workday.WorkdayAdapter.CheckReview | adapters/workday.py:1220-1283 | going on means every stored binding matches this page, and a submission without bindings is attested |
| Workday.WorkdayAdapter.Examine | adapters/workday.py:1220-1313 | the checks and the review reply, before anything is submitted |
| Workday.WorkdayAdapter.ReviewOrSubmit | adapters/workday.py:1220-1369 | a ready review or a grant comes only after those checks; a click only after a grant; verified exactly when this call's click was confirmed while polling |
| Workday.WorkdayAdapter.ClickAndPoll | adapters/workday.py:1334-1369 | one click at most, then at most fifteen looks for a confirmation |
| Workday.WorkdayAdapter.Submit | adapters/workday.py:627-638 | a successful click becomes pending and is the only one under its lock key |
| Workday.WorkdayAdapter.CheckConfirmation | adapters/workday.py:760-765 | on a confirmation page of run, a confirmation counts exactly for a pending pair, and uses it up |
| Workday.WorkdayAdapter.VerifySubmission | adapters/workday.py:640-664 | under any steps of other calls during its await, it reports exactly a confirmation of a pair that was pending before, and leaves the state those steps lead to |
| Workday.WorkdayAdapter.Run | adapters/workday.py:666-872 | every action falls on a page bound to the requested posting, with no mismatch so far, and repeated less than twice; at most max(1, max_steps) pages; a confirmation counts only on a bound page; at most one grant, for the fingerprint of the review it acted on, and one behind every click; an exception may leave any look or action |
| Workday.WorkdayAdapter.Advance | adapters/workday.py:700-872 | the loop keeps those facts up to the page that ends it, or to the look or action that raises |
| Workday.WorkdayAdapter.Look | adapters/workday.py:700-740 | one observation: the repetition count is right, and the decision follows the page and the binding |
| Workday.DecideFacts | adapters/workday.py:700-858 | which pages a decision to act, or to go on, can be taken on |
| Workday.ProgressStep | adapters/workday.py:700-858 | one iteration preserves the run's facts |
| Workday.BlockActionsBound | adapters/workday.py:718-758 | a block of pages with one signature sees at most two actions |
| Workday.BlockLengthBound | adapters/workday.py:718-864 | a run leaves such a block by its fifth page |
| Workday.SameSignatureSameStage | adapters/workday.py:718 | equal signatures come from equal stages |
| Workday.ReviewedReply | adapters/workday.py:1289-1313 | the fingerprint the engine finds in a Workday review is the one that was computed |
| Orchestrator.BuiltRunsAreWellFormed | core/application_execution_orchestrator.py:961-1070 | every run built from an ordered lineage for a constructed assembly and authorisation passes all checks of the run's constructor, identifiers and hashes included |
| Orchestrator.AdvancesIff | core/application_execution_orchestrator.py:1281-1600 | when a stage lets the run go on, and with which record |
| Orchestrator.ResultValidIff | core/application_execution_orchestrator.py:238-302 | which judgements can be constructed as a stage result |
| Orchestrator.AdvanceIsRecorded | core/application_execution_orchestrator.py:235-302 | a stage succeeds exactly when it advances, and then its result can be recorded |
| Orchestrator.EscapesIff | core/application_execution_orchestrator.py:1289-1640 | an exception escapes at a stage exactly when the response's plain-string status is read as a member, a foreign status is taken for completion, its status text is blank or longer than 120 characters, or a reason the stage records is blank or longer than 200 |
| Orchestrator.TypedNeverEscapes | core/application_execution_orchestrator.py:920-932 | no result whose status and reason are members of the stage's enumerations makes an exception escape |
| Orchestrator.UntypedEscapes | core/application_execution_orchestrator.py:1326-1361 | four responses that do |
| Orchestrator.CurrentIsUnique | core/application_execution_orchestrator.py:825-851 | an assembly has one current run |
| Orchestrator.RunRepository.Save | core/application_execution_orchestrator.py:775-823 | write-once by content: an earlier run of the same content is kept and returned |
| Orchestrator.RunRepository.FindCurrent | core/application_execution_orchestrator.py:825-851 | the maximum by completion time, then identifier |
| Orchestrator.CallStage | core/application_execution_orchestrator.py:1244-1640 | one stage is called with the identifier the previous one returned |
| Orchestrator.ExecuteStages | core/application_execution_orchestrator.py:1206-1641 | stages are called at most once, in order, each with the previous identifier; the run is well-formed; there is none exactly when the last stage lets an exception escape |
| Orchestrator.RunStages | core/application_execution_orchestrator.py:1083-1110 | the lineage of the called stages is stored and returned, unless an exception escapes or the repository fails |
| Orchestrator.FindReplay | core/application_execution_orchestrator.py:1206-1242 | the short-circuit finds a run exactly when the current one is terminal under this binding |
| Orchestrator.RunApplicationExecution | core/application_execution_orchestrator.py:1112-1641 | no stage is called exactly when the command is refused, the repository cannot be read, or the current run replays; UNCHANGED exactly in the last case; no exception escapes from typed stages |
| Orchestrator.Step | core/application_execution_orchestrator.py:1112-1641 | one call keeps a one-binding history ordered, and a terminal run replays |
| Orchestrator.RunAll | core/application_execution_orchestrator.py:1206-1242 | with one binding and increasing times, once a terminal run is returned every later call returns it unchanged and calls no stage |
| Orchestrator.OtherBindingHidesTerminal | core/application_execution_orchestrator.py:1222-1242 | a later run under another binding stops the replay |
| Orchestrator.ExamplesAreWellFormed | core/application_execution_orchestrator.py:333-470 | concrete well-formed runs for which the replay is hidden |
| Assembly.AssemblyRepository.Replay | core/application_bundle_assembly.py:1222-1316 | the listing and the replay decision: refused, unreadable, none, exactly one, or several records of this preparation and context |
| Assembly.LoadContext | core/application_assembly_execution_context.py:271-440 | a loaded context repeats exactly the identifiers, hashes and versions the command named, and is loaded exactly when both providers find them bound to the plan |
| Assembly.Build | core/application_bundle_assembly.py:1317-1480 | a new record carries the command's preparation and context and a bundle that agrees with every compared input |
| Assembly.AssemblyRepository.SaveRecord | core/application_bundle_assembly.py:1482-1500 | the record is created, found present, found torn, or not written, and nothing else changes |
| Assembly.AssemblyRepository.SaveEnvelope | core/application_bundle_assembly.py:1501-1535 | the envelope is created once; success exactly when it stands |
| Assembly.AssemblyRepository.Assemble | core/application_bundle_assembly.py:934-1597 | an uninterrupted call creates a record exactly when it found none and every write works; an existing record decides the answer before anything is consulted; nothing stored changes |
| Assembly.AssemblyRepository.AssembleAll | core/application_bundle_assembly.py:1222-1588 | over any interleaving of any calls with crashes, the files and the answers are those of the step machine, nothing stored changes, and the repository stays unique if the calls that can save agree on the tier |
| Assembly.UniqueIff | core/application_bundle_assembly.py:1226-1500 | over all interleavings and crashes there is one record per preparation and context exactly when there was to begin with and the calls that can save agree on the tier |
| Assembly.TwoRecords | core/application_bundle_assembly.py:1226-1500 | two overlapping calls with different tiers leave two records |
| Assembly.ExampleSplits | core/application_bundle_assembly.py:1460-1475 | two concrete calls for which this happens |
| Assembly.CreatedReplays | core/application_bundle_assembly.py:1222-1316 | once a call has returned CREATED, an identical call that begins afterwards returns that record UNCHANGED and consults nothing, whatever else interleaves or dies, unless it dies or a torn record breaks the listing |
| Assembly.RecordedOrOrphaned | core/application_bundle_assembly.py:1497-1535 | a call that created its record succeeds exactly when it lives on and can write the envelope; otherwise the record is orphaned |
| Assembly.OrphanFailsForGood | core/application_bundle_assembly.py:1282-1304 | an orphaned record makes every identical call that begins afterwards fail, on every schedule |
| Assembly.HealthyTwinFails | core/application_bundle_assembly.py:1282-1304 | a call that runs between the record and the envelope of its twin fails for good, although the twin succeeds |
| Assembly.NeverMultiple | core/application_bundle_assembly.py:1275-1281 | where the tiers agree, no call ever finds two records |
| Answers.PrepareAnswers | core/application_answers.py:1374-1690 | the considered keys are split exactly into justified answers and explained open items, each once and in order; it stops only on a value that cannot be constructed |
| Answers.Consider | core/application_answers.py:1508-1670 | one key: the answer is justified, the open item explained, and the stops are exact |
| Answers.AnswerOrExplanation | core/application_answers.py:1508-1670 | no key can have both a justified answer and an explanation for being open |
| Answers.ForbiddenAnsweredIff | core/application_answers.py:1523-1568 | a forbidden considered key is answered exactly when it is boolean and has a confirmed attestation |
| Answers.ForbiddenNeverAnswered | core/application_attestation.py:92-97 | while attestations exist for attestation keys only, no forbidden key is answered |
| Answers.PrepareForbiddenRelocation | core/application_answers.py:1523-1541 | an input for which a forbidden key is answered |
| Answers.ConsiderAll | core/application_answers.py:1507-1670 | the loop splits the keys in order and stops exactly at the first key that cannot be handled |
| Answers.GroupByKey | core/application_answers.py:1499-1503 | the facts grouped under a key are its active, in-scope facts in order |
| Answers.FactsFor | core/application_answers.py:1456-1462 | exactly the active, in-scope facts of a key |
| Answers.MaxSensitivity | core/application_answers.py:1650-1656 | the sensitivity bounds the taxonomy's and every fact's, and is one of them |
| Answers.ReadAttestations | core/application_answers.py:1463-1486 | preparation fails exactly when an attestation raises or is bound elsewhere |
| Upload.PlanUploads | adapters/document_upload.py:187-296 | ready exactly when form and materials allow it; then every control has an item or is skipped, never both, every required one has an item, roles and subjects are unique |
| Upload.AcceptedAreDistinct | adapters/document_upload.py:202-218 | accepting the controls one by one means distinct identifiers and optional foreign controls |
| Upload.Classify | adapters/document_upload.py:202-218 | the first loop passes exactly when identifiers are distinct and foreign controls optional |
| Upload.ServeRole | adapters/document_upload.py:228-290 | a role is served exactly when its material verifies, or is an absent optional cover letter |
| Upload.PlanIsGood | adapters/document_upload.py:57-95 | such a plan always satisfies the checks of the item's and the plan's constructors |
| Upload.RequiredIsChosen | adapters/document_upload.py:220-232 | a required control is alone in its role and gets the item |
| Upload.ItemForIffChosen | adapters/document_upload.py:228-290 | a control has an item exactly when it is the first of a role with a material |
| FactWriter.FactStore.WriteHistory | core/application_fact_writer.py:176-193 | history files never change; it goes on exactly when the record is absent or the same |
| FactWriter.FactStore.WriteBackup | core/application_fact_writer.py:194-202 | backups never change; it goes on exactly when the projection as read is backed up |
| FactWriter.FactStore.Write | core/application_fact_writer.py:143-212 | an overwritten projection is backed up, only the written key changes, every projected answer has its history, conflicts fail without a change, and a healthy write succeeds exactly when nothing is in its way |
| FactWriter.FactStore.WriteAll | core/application_fact_writer.py:143-212 | over any sequence of writes with crashes: history and backups only grow, every version is current or backed up, and a torn backup stops all further changes |

## Left out

- Playwright, selectors, JavaScript, sleeps and browser timing; a page is a script of readings, and a Workday click that raises is taken to have had no effect (the source goes on to the next selector after it).
- Permit signatures, SHA-256, JSON byte encoding, Keychain, IMAP and TLS.
- File-system detail (symbolic links, permissions, file locks); what is kept is write-if-absent with a possible torn file, atomic overwrite, and read.
- Derivation of the durable identity of a posting URL in the ledger: a posting has a key and older identities, and nothing is said about how they are computed.
- A listing of assembly records by one process while another is in the middle of writing a file; a file is absent, complete, or torn by a crash.
- Ledger rows of other tables, event metadata, and the migration of older ledger files.
- The heartbeat of renewing leases; only the owner, token and expiry comparison at the moment of use is modelled.
- Stage-detection phrases, answer synonyms, label heuristics and regular expressions; case folding is the ASCII one.
- Stage responses whose status cannot be hashed or whose attributes raise when read.
- Workday login, registration, credential storage and e-mail verification: only whether they advanced, handed over, or ended the run.
- Reads of plan, posting, manifest and answer set at the start of an assembly: only whether the prepared inputs were complete and bound to each other.
- The repository of prepared answer sets, and the plan, intent, attestation and receipt repositories: the same write-once pattern as the orchestrator's and the assembler's.
- CLI, dashboard, scheduler, model agents, and the selector tables of the individual adapters.
- Engine.JobApplicationEngine.Execute: clicks are counted for the generic and the Workday adapter only, because nothing bounds what an untrusted adapter does with the page; for it the statement is about yes answers and recorded outcomes. The Workday adapter's reviews are known by their fingerprint, not reading by reading.
- Engine.RunDriver: a Workday run that dies is cut off behind one of its effects and does nothing afterwards; other calls on the same adapter during a run are in WorkdaySubmit.
- Engine.JobApplicationEngine.ExecuteAll: the bound counts aborted reservations because a person may reconcile one; no code of the repository aborts a reservation.
- WorkdaySubmit.WithinClicksIff: the unconditional bound fails for overlapping calls of one run and job, as OverlapCountsTwice and OverlapChecksCountTwice show.
- Workday.WorkdayAdapter.ReviewOrSubmit: no other call of the same adapter runs during its polling; the schedules in which one does are in WorkdaySubmit.
- Assembly.UniqueIff: the unconditional uniqueness fails for overlapping calls whose factories choose different tiers, as TwoRecords shows.
- FactWriter.FactStore.WriteAll: writers in several processes at once are not modelled; the source serialises writers within one process only.
