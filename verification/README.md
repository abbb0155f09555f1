# Verification of the image validation platform

A Dafny model of the parts of the platform that decide whether an image passes, and of what happens next, with
proofs about all inputs, all runs and all schedules of that model.

- **The validation pipeline** (`Crds`, `Pipeline`, `PipelineHistory`, `PipelineBackward`, `ChildFindings`,
  `PipelineSafety`, `PipelineProgress`, `EventLoss`, `EventStory`, `DastTargets`, `Receipts`, `Gates`, `Outcomes`):
  the controllers and their environment as one transition system over the stored objects. A reconcile reads, plans,
  and then performs its effects one step at a time (each creation, the status write, each event), while every other
  controller may step in between; it may be killed between any two effects, and any event may be dropped on its way.
  Scan jobs, tenants, the receipt appender and the dispatcher are steps of their own; so are Kubernetes jobs that
  finish or expire, dispatcher restarts, and deletes from outside.
- **The controllers as they run** (`Controllers`, `Dispatcher`): classes whose methods read and write call by call,
  proved against the plans and steps of that system; `PlanLaws` says case by case what single reconciles plan.
- **Status writes** (`StatusPatch`, `StatusReading`): JSON encodings of the statuses, what the API server's merge patch
  makes of them, and reading them back.
- **Merge patch and FluxCommit** (`MergePatch`, `FluxCommit`): the in-place merge of section 2 of RFC 7396, and the
  clone, patch, commit, push cycle on top of it.
- **The decision** (`Security`, `SecurityLaws`, `DriftLaws`): drift, severity and decision of a security snapshot, and
  the same said of the snapshot alone.
- **The executor** (`Actions`, `Executor`, `HandlerSpecs`, `Remediation`): typed actions over arbitrary stateful leaf
  executors, the specs their handlers accept, and what becomes of the actions the gate emits.
- **Evidence and encodings** (`StableOrder`, `Evidence`, `Encodings`): stable sorting, canonical findings, byte views
  and names.
- **The compliance views** (`Compliance`): the REST and the GraphQL loop over the same validations.
- **Witnesses** (`Witnesses`): runs from the initial state that reach what the theorems say can go wrong.
- **Common ground** (`Wrappers`, `Subsequences`): options, and sequences with elements struck out.

`dafny verify dfyconfig.toml` checks everything.

## How the pipeline is modelled

- Reconciles of one object are serialised, one replica of each controller is running, and a reconcile reads the
  stored objects as they are when it begins. Watch events, on the other hand, may be stale and may be replayed: the
  dispatcher and the receipt appender are handed any earlier version of the object.
- The deployment flags do not change during a run; only the controllers create tenants and scan jobs, and specs are
  not edited. A validation is never deleted and created again under its old name, so the children found by name are
  its own.
- A creation is one effect with its look-up: it does nothing when the object is already there. A read that fails is
  a reconcile that dies before its next effect.
- A failed publish, and one without a connection, drops its event: the reconcile goes on with the next effect. A row
  whose append fails is missing, and the next row is tried.
- External deletes are steps of the system. Theorems that need them excluded say so (`DeleteFree`); the others hold
  with them.
- A parsed report carries the scanner whose output was parsed (scanner-catalog/src/parsers/mod.rs:93-111); findings
  are otherwise arbitrary. Message and score of a finding are one opaque field, which the evidence hash covers.
- A spec deserialises when its fields are there, by name or by position, and have their types; other names are
  ignored. Kinds whose Spec struct is not in the repository take any spec.
- blake3 is an arbitrary function (injective only where a lemma says so). A hash of findings is a function of the
  finding list. Times are nanoseconds since the epoch; characters stand for bytes.
- The API server applies a status write as a merge patch. `StatusPatch` proves when this is the overwrite that the
  transition system performs. A date is encoded as a number and an action by an arbitrary function.
- The empty action object `{}` is no typed action, so a decision that carries it is recorded as seen and not executed.
- The types of the promessa crates, such as `TypedAction` and `Decision`, are not part of the repository; their shape
  is taken from their uses here.

## Where the code and its comments differ

- validation-jobs/src/lib.rs:246 calls the byte view length-prefixed; the fields are zero-terminated
  (`Encodings.SerdeBytesReadBack` says when that can be read back, `Encodings.SerdeBytesConfuse` where it cannot).
- validation-controllers/src/image_validation.rs:178-181 promises one side effect a handler; provisioning creates up to
  eleven scan jobs before its status write, and may die after any of them.
- validation-controllers/src/ephemeral_tenant.rs:128 clears the URL when no target is fed; the merge patch leaves it
  stored (`StatusPatch.OnlyTheUrlOutlivesItsTarget`).
- validation-controllers/src/scan_job.rs:169 lets a finished Kubernetes job expire after an hour; a scan job that has
  not collected its output by then stays Running for ever, and its validation stays in Scanning
  (`PipelineProgress.FinishesIffNotStranded`).
- The dedupe set lives in one process: a dispatcher restart executes a decision again
  (`Dispatcher.RestartExecutesAgain`), once for each process that the decision is delivered to
  (`Dispatcher.ExecutedOncePerServedProcess`).
- validation-controllers/src/action_dispatcher.rs:197-201 has a failed append retried by a later reconcile; the key is
  known by then, so the row stays missing (`Dispatcher.ReplayIsSilent`, `Dispatcher.FailedAppendsAreMissing`).
- security-controller/src/lib.rs:342-405 emits actions for cartorio's handler whose specs name no transition, or a
  text in its place; the handler's Spec struct (reconciler-engine/src/reconcilers/cartorio_admit.rs:114-120) refuses
  both, so no action that a gate emits changes anything outside (`Remediation.NoDispatchReachesOut`).
- validation-jobs/src/lib.rs:230 calls the order by scanner and CVE id canonical; it is exactly when ties of different
  jobs commute (`Evidence.AggregateIgnoresMapOrderIff`).
- Events are published after the status write and never again: one lost in a crash or in a failed publish is missed
  for good (`EventLoss.StreamTellsIffNothingLost`, `EventStory.StreamIsTheStoryIffNothingLost`).
- A nested Compose always reports Applied, so its inner failure does not stop the outer sequence
  (`Executor.ComposeRunsAPrefix`).

## Model

| member | source | states |
|---|---|---|
| PipelineHistory.HistoryHolds | validation-controllers/src/image_validation.rs:62-168 | every run, external deletes, kills between any two effects and dropped events included, keeps the shape of every status, the story told by the events of a validation that lost none, and the dispatches |
| PipelineHistory.StatusMatchesPhase | validation-controllers/src/image_validation.rs:184-446 | over every run: the tenant is referred to under its name and the start time set from Provisioning on, the evidence hash exactly from Attesting on, a gate decision exactly in a terminal phase, and the terminal phase is the one its verdict names; Quarantined is never reached |
| PipelineHistory.PlanIsSound | validation-controllers/src/image_validation.rs:81-92 | whatever a reconcile reads: it creates children only, writes a status one edge on (or none, in a terminal phase), and keeps every write-once field |
| PipelineHistory.StepFollowsTheChain | validation-controllers/src/image_validation.rs:81-92 | each step of the system leaves a phase alone or moves it along one edge of the chain; start time, evidence hash, decision and terminal time keep their values once set |
| PipelineHistory.RunGrows | validation-controllers/src/image_validation.rs:94-104 | the same over any further run: what was written once is still there, and a terminal phase with its summaries stays |
| PipelineHistory.BackwardEdge | validation-controllers/src/image_validation.rs:287-304 | one plan goes back only from Scanning to Provisioning, and only on reading neither the tenant nor any child |
| PipelineBackward.OnlyLossGoesBack | validation-controllers/src/image_validation.rs:233-304 | the same over every run with external deletes: the step that takes a phase back is a reconcile whose reads found everything gone |
| PipelineSafety.SafeHolds | validation-controllers/src/image_validation.rs:184-446 | every run without external deletes keeps the promise of every phase (children there, attested, counted, hashed, judged) and what each reconcile under way has read |
| PipelineSafety.PatchKeepsPromise | validation-controllers/src/image_validation.rs:93-97 | the status a reconcile writes keeps the promise of its new phase although other controllers moved on since it read |
| PipelineSafety.OneJobPerRequiredScanner | validation-controllers/src/image_validation.rs:261-278 | from Scanning on there is exactly one scan job for each required scanner of a validation and none for any other; from Aggregating on all are attested |
| PipelineSafety.ScannersRunByFlags | validation-controllers/src/image_validation.rs:781-799 | the same by the deployment flags alone: eight scanners always, Semgrep and KubeLinter exactly with the source at hand, Zap exactly with a live target, no other ever |
| ChildFindings.RequiredScannersByFlags | validation-controllers/src/image_validation.rs:262-278 | and in the order in which the scanners are declared |
| PipelineSafety.ScanJobsAreSound | validation-controllers/src/scan_job.rs:58-99 | a scan job is a required scanner's, bears its name and belongs to a validation; it reports nothing before it is attested, and then its own scanner's findings, counted and hashed |
| PipelineSafety.HashedCountedAndJudgedAlike | validation-controllers/src/image_validation.rs:335-446 | freeze: what the children report now, listed in any order, is what the summaries count, what the evidence hash covers and what the gate judged; the run is Failed exactly on a live critical finding and Passed otherwise |
| Outcomes.FinishedInPlainWords | validation-controllers/src/image_validation.rs:377-446 | over every run without deletes, said of the children's reports and the flags alone: failed exactly on a critical finding that names a CVE and that no exception covers; the severity; and for each such finding, or each missing attestation and each high finding of 16 days or more, the steps of the action, naming this image and this service, and no other step |
| Outcomes.SummariesInPlainWords | validation-controllers/src/image_validation.rs:306-330 | from Aggregating on the summaries name each child once, as attested, with as many findings as it reports now |
| Outcomes.GateInPlainWords | validation-controllers/src/image_validation.rs:597-639 | for any children: severity, verdict and action of the gate from one unattested, pending observation of the image |
| PipelineSafety.FindingsAreFrozen | validation-controllers/src/image_validation.rs:306-330 | from Aggregating on no later step changes what the required children found |
| PipelineSafety.ScanOnlyNeverActs | validation-controllers/src/image_validation.rs:421-428 | a scan-only deployment never executes an action, over every run |
| PipelineSafety.RemediationNeverSeesACosmeticDrift | validation-controllers/src/image_validation.rs:619-635 | with remediation on no decision is ever cosmetic: critical when failed, functional when passed |
| PipelineSafety.StepNeverGoesBack | validation-controllers/src/image_validation.rs:287-330 | without external deletes no step of any controller takes a validation back |
| DastTargets.DynamicScansAimAtTheirTenant | validation-controllers/src/image_validation.rs:531-595 | across controllers: a Zap job is aimed at the URL its tenant is ready under now, any other job at no tenant |
| PipelineProgress.RemainingNeverRisesOnRuns | validation-controllers/src/image_validation.rs:81-92 | over every run without deletes, whatever is killed, dropped or expires: the phases that a validation, its tenant and its scan jobs still have to go through never rise |
| PipelineProgress.StepAdvances | validation-controllers/src/image_validation.rs:62-110 | with no child stranded, any step other than a delete or an early expiry, kills and dropped events included, undoes nothing: no phase of the validation, its tenant or its children, and no Kubernetes job |
| PipelineProgress.FairSchedulesFinish | validation-controllers/src/image_validation.rs:62-110 | from every state that runs without deletes reach with no child stranded, every schedule on which every controller keeps coming and reconciles of the validation are not killed every time brings it to a terminal phase with a decision |
| PipelineProgress.OnlyExpiryStrands | validation-controllers/src/scan_job.rs:169 | a child is stranded in exactly one way: its Kubernetes job expires after it finished and before the output was collected |
| PipelineProgress.StrandedNeverFinishes | validation-controllers/src/scan_job.rs:333-344 | after that no run without deletes takes the validation past Scanning |
| PipelineProgress.FinishesIffNotStranded | validation-controllers/src/scan_job.rs:333-344 | in every state of every run without deletes a validation can still reach its verdict if and only if no child is stranded |
| Witnesses.StrandedExample | validation-controllers/src/scan_job.rs:169 | for every configuration, twelve steps from the start to a stranded child and a validation that can never finish |
| PipelineProgress.TenantsHold | validation-controllers/src/ephemeral_tenant.rs:72-145 | tenants nobody tears down are new, waiting under a URL, or ready with a ready time; pods are reported only under a URL |
| PipelineHistory.EmittedTells | validation-controllers/src/image_validation.rs:112-168 | the events of one status write carry the story from the old status to the new one |
| PipelineHistory.EventStreamReplaysTheState | validation-controllers/src/image_validation.rs:112-168 | where no event was dropped and no reconcile died between its write and its last event: PhaseChanged events chain from Pending, replaying them gives the phase, and DecisionEmitted occurs once exactly in a terminal phase, with the stored severity and verdict |
| EventLoss.StreamTellsIffNothingLost | validation-controllers/src/events_publisher.rs:116-142 | over every run without deletes, no reconcile under way: the stream tells the state exactly when no event of the validation was dropped and no reconcile of it died between its status write and its last event |
| EventStory.StreamIsTheStoryIffNothingLost | validation-controllers/src/events_publisher.rs:116-134 | over every run, deletes included: what status writes announce always tells the state; what was published is that story in its order, and it is all of it exactly when no event was dropped and no reconcile died with one to publish |
| Witnesses.LostEventExample | validation-controllers/src/image_validation.rs:97-108 | five steps from the start to a validation whose stream misses its first phase change, once by a kill and once by a failed publish |
| PipelineHistory.DispatchedAtMostOncePerProcess | validation-controllers/src/action_dispatcher.rs:91-143 | over any delivery of stale and current versions, one dispatcher process executes at most one action per validation, the action of its only decision |
| PipelineHistory.PastVersionsAreObservable | validation-controllers/src/action_dispatcher.rs:80-89 | every version of a validation that a run produced is one the watch may still deliver later: the delivery assumption excludes none |
| ChildFindings.GateVerdict | validation-controllers/src/image_validation.rs:377-446 | for every set of children and every flag: Failed exactly on a live critical finding, Passed otherwise, Failed exactly when critical, never a HarborMirror action |
| ChildFindings.GateSeverityOfChildren | validation-controllers/src/image_validation.rs:391-395 | the severity of the gate from the findings, the flag and the scanners that reported |
| ChildFindings.ListingIsIrrelevant | validation-controllers/src/image_validation.rs:677-694 | in whatever order the children are listed: the same canonical findings, as many, the same members |
| ChildFindings.SummariesCountTheFindings | validation-controllers/src/image_validation.rs:310-320 | the summaries' findings counts add up to the number of findings the children report |
| StatusPatch.MergeOverwrites | validation-controllers/src/image_validation.rs:94-97 | a merge patch is an overwrite exactly when it has no null member and names every key of each object it meets |
| StatusPatch.StatusMergeOverwrites | validation-crds/src/image_validation.rs:84-122 | merging an encoded status into an encoded status gives the new one exactly when no field is dropped and the gate's action survives |
| StatusPatch.ReconcilesOverwriteTheStatus | validation-controllers/src/image_validation.rs:94-97 | over every run: the merge patch of a reconcile replaces the stored status by the planned one, if and only if the gate's action has no null member |
| StatusReading.StatusReadsBack | validation-crds/src/image_validation.rs:84-122 | a stored status reads back as written: every field under its own key, every name as its own |
| StatusReading.TenantReadsBack | validation-controllers/src/ephemeral_tenant.rs:147-158 | so does a tenant's |
| StatusPatch.ReceiptWriteIsLocal | validation-controllers/src/outcome_chain.rs:65-67 | the appender's patch sets the receipt and changes nothing else of the document |
| StatusPatch.TenantPatchedIsTheMerge | validation-controllers/src/ephemeral_tenant.rs:147-158 | what the model stores after a tenant write is what the merge of the two encoded statuses leaves |
| StatusPatch.OnlyTheUrlOutlivesItsTarget | validation-controllers/src/ephemeral_tenant.rs:103-139 | the tenant status that was meant is stored, except exactly when the target is withdrawn from a tenant that has a URL: the URL stays |
| Witnesses.OldUrlExample | validation-controllers/src/ephemeral_tenant.rs:120-132 | five steps from the start to a tenant that is ready with no pods, under the old URL, at which ZAP is aimed |
| Receipts.SealsHold | validation-controllers/src/outcome_chain.rs:42-104 | over every run, stale watch events included: a receipt hashes the service, image, verdict, severity and evidence of the validation that carries it |
| Receipts.ReceiptsInPlainWords | validation-controllers/src/outcome_chain.rs:74-94 | over every run: the text that a receipt hashes, spelled out from the phase, the severity, the image and the evidence |
| Receipts.AppendedByObservation | validation-controllers/src/outcome_chain.rs:42-72 | a receipt is appended exactly when the delivered version has ended and shows none, with the time of the append, and nothing else changes |
| Receipts.EqualReceiptsEqualOutcomes | validation-controllers/src/outcome_chain.rs:74-94 | equal receipt hashes mean equal service, image, phase, verdict, severity and evidence, for bar-free digests and evidence under an injective hash |
| Controllers.ValidationController.HandlePending | validation-controllers/src/image_validation.rs:184-230 | creates the tenant if it is not there and plans Provisioning; a call that fails leaves nothing else |
| Controllers.ValidationController.EmitScanJobs | validation-controllers/src/image_validation.rs:261-278 | creates the missing scan jobs one by one; dying after any prefix leaves exactly that prefix; on success every scanner that the flags have run has its job, and no new job is of any other scanner |
| Controllers.ValidationController.HandleProvisioning | validation-controllers/src/image_validation.rs:233-284 | without its tenant re-enters the pending handler, waits for it to be ready, else emits the scan jobs and plans Scanning |
| Controllers.ValidationController.HandleScanning | validation-controllers/src/image_validation.rs:287-331 | without children re-enters the provisioning handler, else refreshes the summaries and goes on once all are terminal |
| Controllers.ValidationController.HandleAggregating | validation-controllers/src/image_validation.rs:335-357 | hashes the canonical findings of the listed children |
| Controllers.ValidationController.HandleAttesting | validation-controllers/src/image_validation.rs:363-372 | passes through with the artifact state pending |
| Controllers.ValidationController.BuildSecuritySnapshot | validation-controllers/src/image_validation.rs:597-639 | one observation with all findings, every reporting scanner, no attestation, state pending |
| Controllers.ValidationController.ReadDecision | validation-controllers/src/image_validation.rs:400-429 | the verdict and the action a decision stands for |
| Controllers.ValidationController.HandleGating | validation-controllers/src/image_validation.rs:377-446 | diff, classify and decide over that snapshot, and the terminal status they give |
| Controllers.ValidationController.Publish | validation-controllers/src/events_publisher.rs:116-134 | an event that does not arrive is dropped and the caller goes on |
| Controllers.ValidationController.EmitPostPatch | validation-controllers/src/image_validation.rs:112-168 | publishes the phase change and the first decision, in this order, as far as the process lives; a dropped event does not keep it from the next one |
| Controllers.ValidationController.Reconcile | validation-controllers/src/image_validation.rs:62-110 | whatever the phase, wherever the process dies and whichever events are dropped: a prefix of the plan's effects, in order, less those events, and success exactly when the prefix is all of them |
| Controllers.ReconcileIsARun | validation-controllers/src/image_validation.rs:62-110 | the method does what a run of the system does, so what is proved of runs holds of it; it loses an event exactly when one was dropped or the process died with one still to publish |
| PlanLaws.ProvisioningWaits | validation-controllers/src/image_validation.rs:233-284 | provisioning waits exactly while its tenant is there and neither ready nor in use, and starts over exactly without it |
| PlanLaws.FreshSummariesByFlags | validation-controllers/src/image_validation.rs:261-284 | what provisioning writes names the job of each scanner that the flags have run, once, pending and without findings |
| PlanLaws.ScanningShowsItsChildren | validation-controllers/src/image_validation.rs:306-331 | each listed child is shown in its phase with its count, and scanning ends exactly when every child is Attested, Failed or Reaped |
| PlanLaws.PlansStampTheirTime | validation-controllers/src/image_validation.rs:227 | a first start time and a decision's times are the reading of the clock, and an earlier start stays |
| PlanLaws.EmittedInOrder | validation-controllers/src/image_validation.rs:112-168 | at most one change of phase and then at most one first decision, with what they say |
| PlanLaws.VerdictsByDecision | validation-controllers/src/image_validation.rs:400-429 | failed exactly for an automatic correction of something critical, quarantined exactly for what needs a person |
| PlanLaws.ActionsByDecision | validation-controllers/src/image_validation.rs:400-429 | an action is kept exactly where the decision has one and remediation is on |
| PlanLaws.ScanJobsByPhase | validation-controllers/src/scan_job.rs:47-102 | one phase on at a time; the report is taken, counted and hashed exactly when the job runs and its output is there |
| PlanLaws.TenantsByPhaseAndTarget | validation-controllers/src/ephemeral_tenant.rs:72-145 | settled tenants stay, one torn down is reaped, any other goes where its target is, with its times, URL and pods |
| PlanLaws.AllocatedOnce | validation-controllers/src/ephemeral_tenant.rs:106-108 | whatever happens to a tenant short of its deletion, its allocation time is written once |
| Controllers.ScanJobController.PatchPhase | validation-controllers/src/scan_job.rs:108-127 | a merge patch of the phase, and of findings and attestation when given; the rest stays |
| Controllers.ScanJobController.CreateScannerJob | validation-controllers/src/scan_job.rs:129-140 | creates the Kubernetes job if it is not there |
| Controllers.ScanJobController.CollectResults | validation-controllers/src/scan_job.rs:333-395 | nothing until the Kubernetes job is there and done, then the parsed findings and their hash |
| Controllers.ScanJobController.Reconcile | validation-controllers/src/scan_job.rs:47-102 | one phase on, or nothing: the system's step, crashed exactly if it did not get to the end |
| Controllers.TenantController.AssessTarget | validation-controllers/src/ephemeral_tenant.rs:192-210 | no target skips, an in-cluster target waits for its service, any other is ready at once |
| Controllers.TenantController.Reconcile | validation-controllers/src/ephemeral_tenant.rs:72-145 | the tenant after one reconcile, with the status merged into the stored one |
| Controllers.OutcomeAppender.Handle | validation-controllers/src/outcome_chain.rs:42-72 | appends a receipt to a terminal validation whose delivered version has none |
| Dispatcher.DedupeSet.Record | validation-controllers/src/action_dispatcher.rs:55-61 | true exactly for a new key, which is then known |
| Dispatcher.ActionDispatcher.Handle | validation-controllers/src/action_dispatcher.rs:91-143 | records the key before anything else, executes a new decision's action and appends its rows, each of which may fail |
| Dispatcher.ActionDispatcher.Watch | validation-controllers/src/action_dispatcher.rs:80-89 | the loop over the stream is the fold of single deliveries |
| Dispatcher.ReplayIsSilent | validation-controllers/src/action_dispatcher.rs:107-119 | delivering a decision again does nothing at all |
| Dispatcher.ExecutedOncePerDecision | validation-controllers/src/action_dispatcher.rs:50-61 | over every stream: no decision is executed twice, and the seen keys are exactly the delivered ones |
| Dispatcher.ExecutedOncePerRun | validation-controllers/src/action_dispatcher.rs:91-143 | with decisions written once per run, at most one execution per run |
| Dispatcher.EveryDecisionIsExecuted | validation-controllers/src/action_dispatcher.rs:121-142 | the first delivery of a decision with a typed action is executed |
| Dispatcher.OnlyExecutionsLeaveTraces | validation-controllers/src/action_dispatcher.rs:139-142 | the foreign calls are those of the executed actions, one after the other, and the stored rows are their rows whose append succeeded |
| Dispatcher.FailedAppendsAreMissing | validation-controllers/src/action_dispatcher.rs:180-215 | over every stream and every pattern of failing appends: the stored rows are the rows asked for, in order, and all of them exactly when no append failed |
| Dispatcher.DeliveryIsTheSystemsStep | validation-controllers/src/action_dispatcher.rs:91-143 | the dispatcher executes exactly when the system's delivery step dispatches |
| Dispatcher.ExecutedOncePerServedProcess | validation-controllers/src/action_dispatcher.rs:45-61 | over every run: a validation's action is executed exactly as often as there were dispatcher processes that a version with its decision was delivered to; so at most once if and only if at most one process got it |
| Dispatcher.ExecutedOncePerRestart | validation-controllers/src/action_dispatcher.rs:45-61 | so the executions of one validation are at most one more than the dispatcher's restarts |
| Dispatcher.RestartExecutesAgain | validation-controllers/src/action_dispatcher.rs:45-53 | a restart forgets the keys: the same decision is executed once more by the next process |
| Witnesses.ExecutedTwiceExample | validation-controllers/src/action_dispatcher.rs:45-61 | with remediation on, a run without deletes from the start that executes a validation's action twice |
| Executor.ActionExecutor.Dispatch | reconciler-engine/src/lib.rs:96-188 | a registered kind reaches its handler when its spec deserialises; otherwise the answer is an invalid spec or an internal error and nothing is called |
| Executor.ActionExecutor.Run | reconciler-engine/src/lib.rs:321-428 | the loop with break computes the recursive trace and outcome, for any stateful leaf executors |
| Executor.LeafOutcomes | reconciler-engine/src/lib.rs:345-428 | a leaf succeeds exactly when it is a Noop or its wired executor answers with a success; each kind that nobody is wired for is refused with its own error and calls nobody |
| Executor.ComposeGoesPast | reconciler-engine/src/lib.rs:325-340 | a Compose goes past a step exactly when every step so far is a Compose, a Noop or a foreign leaf answered with a success |
| HandlerSpecs.FitsIffReads | reconciler-engine/src/lib.rs:96-106 | a handler is reached exactly with the specs that deserialise as its own |
| HandlerSpecs.SpecsReadBack | reconciler-engine/src/reconcilers/cartorio_admit.rs:51-120 | what serialises from a handler's spec deserialises as that spec, with or without further members |
| HandlerSpecs.WrittenSpecsReachTheirHandler | reconciler-engine/src/lib.rs:170-188 | so every well-formed spec reaches its registered handler |
| Executor.ComposeRunsAPrefix | reconciler-engine/src/lib.rs:325-340 | the receipts are for a prefix of the steps in order; every one but the last succeeded; the prefix is proper only when the last failed; a nested Compose never stops its parent |
| Executor.CallsFollowTheTree | reconciler-engine/src/lib.rs:321-340 | foreign calls happen in the order of the tree's leaves, each leaf at most once |
| Executor.NothingIsSkipped | reconciler-engine/src/lib.rs:325-340 | every foreign leaf is called, in tree order, if and only if the steps that a failure cut off hold none; so it is when no receipt of this run failed |
| Executor.PersistRows | validation-controllers/src/action_dispatcher.rs:154-215 | the zip of steps and receipts is appended row by row; a failed append is skipped and the next one tried |
| Executor.RowReadsBack | validation-controllers/src/action_dispatcher.rs:265-292 | a row determines its action and its outcome; its labels name the kind of the action, the reconciler and the outcome |
| Executor.ExecutedRows | validation-controllers/src/action_dispatcher.rs:161-178 | an executed Compose asks for exactly one row per receipt, row i pairing step i with receipt i; any other action for one row |
| Executor.StoredRows | validation-controllers/src/action_dispatcher.rs:180-215 | of these rows exactly those whose append succeeded are stored, in order: all of them if and only if no append failed |
| Remediation.GateActs | security-controller/src/lib.rs:342-405 | with remediation on every decision carries an action |
| Remediation.EveryGateActionIsRefused | reconciler-engine/src/reconcilers/cartorio_admit.rs:51-120 | whatever drifted, functional or critical, and whatever is wired: an action the gate emits stops at its first step, on a spec that does not deserialise when the cartorio handler is registered and on a missing handler otherwise, and nothing outside is asked |
| Remediation.NoDispatchReachesOut | reconciler-engine/src/lib.rs:96-106 | over every run, deletes included: no dispatched action reaches a foreign executor |
| Security.Diff | security-controller/src/lib.rs:242-327 | the accumulating loop gives the concatenation of the digests' drifts |
| Security.DiffOne | security-controller/src/lib.rs:249-324 | one digest's turn in that loop, with its clean flag |
| Security.JudgeFindings | security-controller/src/lib.rs:286-316 | the inner loop: which findings breach, and whether the digest stays clean |
| Security.Decide | security-controller/src/lib.rs:342-429 | the method's loops build the decision of the specification |
| DriftLaws.DecisionInPlainWords | security-controller/src/lib.rs:342-429 | for every snapshot, from the snapshot alone: on a critical one the three steps of each live critical finding, in order, naming its digest, its service and its CVE; on a functional one a step of the right reconciler for each missing attestation and then one for each aged high finding; on a cosmetic one a mirror of each clean digest |
| DriftLaws.SeverityInPlainWords | security-controller/src/lib.rs:329-340 | the severity of a snapshot from statuses, findings, attestations and reports alone |
| DriftLaws.DriftListsTheFindings | security-controller/src/lib.rs:286-316 | the three CVE lists hold each finding that counts once, in the order of the reports, with its digest, service, scanner and age |
| DriftLaws.DriftListsTheWithdrawn | security-controller/src/lib.rs:252-259 | the list of revoked digests holds exactly those that are revoked, quarantined or superseded |
| DriftLaws.DriftListsTheMissing | security-controller/src/lib.rs:274-284 | each digest is listed with exactly the scanners that are required and have not reported |
| SecurityLaws.AgeThreshold | security-controller/src/lib.rs:128-132 | with truncation toward zero, older than n days is n + 1 full days or more, for every n of at least zero and every sign of the elapsed time |
| SecurityLaws.DiffConcat | security-controller/src/lib.rs:242-327 | the drift of concatenated digest lists is the componentwise concatenation |
| SecurityLaws.ClassifyOneDigest | security-controller/src/lib.rs:242-340 | the severity of one digest said in terms of its findings, attestations and reports |
| SecurityLaws.ClassifyIsTheMaximum | security-controller/src/lib.rs:329-340 | the severity of a snapshot is the worst of its digests, and some digest has it |
| SecurityLaws.SeverityIsMonotone | security-controller/src/lib.rs:242-340 | findings, digests and time never lower the severity; exceptions, attestations and reports never raise it |
| SecurityLaws.CleanDigestsAreMirrorable | security-controller/src/lib.rs:318-323 | the clean list is exactly the in-order filter of active, attested, scanned digests without a breaching finding |
| SecurityLaws.NoDigestIsForgotten | security-controller/src/lib.rs:242-327 | every digest that is neither clean nor pending is in some drift list |
| SecurityLaws.CosmeticMirrorsTheCleanDigests | security-controller/src/lib.rs:408-428 | on a cosmetic drift with forwarding on the decision mirrors exactly the clean digests |
| SecurityLaws.AlertIffOnlyScannersMissing | security-controller/src/lib.rs:375-407 | a drift is only alerted on exactly when missing scanners are its only cause |
| SecurityLaws.CriticalActionsByCve | security-controller/src/lib.rs:344-373 | each critical CVE gets revoke, block and pin, in this order, at its own place |
| Evidence.CanonicalFindings | validation-controllers/src/image_validation.rs:677-694 | collect and sort in place gives the canonical findings |
| Evidence.CanonicalIsInOrder | validation-controllers/src/image_validation.rs:687-692 | what is hashed: the same findings as often as reported, scanner by scanner as declared, of one scanner those without an id first and then by id as in a dictionary, of one id the older first, and ties as they were |
| Evidence.CanonicalIgnoresListing | validation-controllers/src/image_validation.rs:677-694 | the canonical findings do not depend on the order of blocks that carry distinct scanners |
| Evidence.AggregateExecuteBody | validation-jobs/src/lib.rs:227-242 | the aggregate over the sink, in whatever order the map is visited |
| Evidence.AggregateCountsAndOrders | validation-jobs/src/lib.rs:227-242 | for every visiting order: the totals are those of the sink, and what is hashed are its findings by scanner name and id, as in a dictionary |
| Evidence.AggregateIgnoresMapOrder | validation-jobs/src/lib.rs:227-242 | when every job reports under its own scanner name the outcome is the same for every visiting order |
| Evidence.AggregateIgnoresMapOrderIff | validation-jobs/src/lib.rs:227-257 | for well-formed findings and a hash without collisions: the outcome is the same for every visiting order if and only if ties of different jobs commute |
| Evidence.SharedScannerNameLeaksOrder | validation-jobs/src/lib.rs:231-233 | two jobs under one scanner name: a concrete sink whose hash depends on the visiting order |
| Evidence.ScanResultSink.Record | validation-jobs/src/lib.rs:112-119 | the outcome is stored under its job id, replacing an earlier one |
| StableOrder.StableSortIsStable | validation-controllers/src/image_validation.rs:687-692 | the sort is ordered and keeps ties in their order |
| StableOrder.SortedIsDetermined | validation-controllers/src/image_validation.rs:687-692 | any result that is ordered and keeps ties in order is this one |
| StableOrder.OrderErasedIff | validation-jobs/src/lib.rs:229-233 | a stable sort erases the order in which blocks were visited if and only if, for every two blocks and every class of ties, it makes no difference whose ties come first |
| StableOrder.BlockOrderIsErased | validation-controllers/src/image_validation.rs:677-694 | a stable sort erases the order of blocks none of whose elements tie across blocks |
| Encodings.KebabReadsBack | validation-controllers/src/image_validation.rs:464-486 | the kebab names tell the scanners apart |
| SecurityLaws.ShortNamesAreInFullNames | validation-controllers/src/image_validation.rs:464-486 | the short name of a scanner, in job names, is part of its full name, in reasons |
| Encodings.ScanJobNameIsInjective | validation-controllers/src/image_validation.rs:264-265 | a scan job's name determines its scanner and its parent, for every parent name |
| Encodings.TenantNameIsInjective | validation-controllers/src/image_validation.rs:190 | a tenant's name determines its validation |
| Encodings.ReceiptReadsBack | validation-controllers/src/outcome_chain.rs:74-94 | the receipt text can be read back exactly when its last four fields have no bar; the service may be any text |
| Encodings.SerdeBytesOf | validation-jobs/src/lib.rs:245-257 | the loop appends three terminated fields a finding |
| Encodings.SerdeBytesReadBack | validation-jobs/src/lib.rs:245-257 | the bytes can be read back exactly when no field has a zero byte and no CVE id is the empty text |
| Encodings.SerdeBytesConfuse | validation-jobs/src/lib.rs:253 | two different finding lists with the same bytes: an absent CVE id against an empty one |
| MergePatch.MergeJson | reconciler-engine/src/reconcilers/flux_commit.rs:415-434 | the in-place merge computes the merge patch of section 2 of RFC 7396, in whatever order the patch's keys are visited |
| MergePatch.MergeFrame | reconciler-engine/src/reconcilers/flux_commit.rs:415-434 | every place outside the patch keeps its value, at every depth |
| MergePatch.MergeEstablishes | reconciler-engine/src/reconcilers/flux_commit.rs:415-434 | after a merge the document meets the patch |
| MergePatch.MergeIsTheOnlyAnswer | reconciler-engine/src/reconcilers/flux_commit.rs:415-434 | meeting the patch and keeping every place outside it leave no other document |
| MergePatch.MergeFixedPoint | reconciler-engine/src/reconcilers/flux_commit.rs:219-227 | a merge leaves a document alone exactly when the document already meets the patch |
| MergePatch.MergeIdempotent | reconciler-engine/src/reconcilers/flux_commit.rs:415-434 | merging twice is merging once |
| MergePatch.IndependentMergesCommute | reconciler-engine/src/reconcilers/flux_commit.rs:415-434 | patches about different places commute |
| FluxCommit.FluxCommitReconciler.Act | reconciler-engine/src/reconcilers/flux_commit.rs:171-265 | clone, patch, commit, push, with any of them failing: the outcome and the remote afterwards |
| FluxCommit.AppliedIffNothingFails | reconciler-engine/src/reconcilers/flux_commit.rs:171-265 | an act is applied exactly when there is something to change, the merge encodes and no call fails; and which refusals are whose |
| FluxCommit.OnlyAppliedActsChangeTheRemote | reconciler-engine/src/reconcilers/flux_commit.rs:229-265 | an applied act with pushing on leaves one more commit, the merge in the one file, and nothing else changed; any other act leaves the remote alone |
| FluxCommit.FaultlessActsAllTakeEffect | reconciler-engine/src/reconcilers/flux_commit.rs:191-265 | where no call of an act on a file fails, every such act succeeds and its patch takes effect, whatever goes wrong elsewhere |
| FluxCommit.ConvergedIffSatisfied | reconciler-engine/src/reconcilers/flux_commit.rs:217-227 | AlreadyConverged exactly when the document that was read meets the patch |
| FluxCommit.CommitIsNeverEmpty | reconciler-engine/src/reconcilers/flux_commit.rs:219-241 | what is committed always differs from what was there |
| FluxCommit.RemoteIsTheFold | reconciler-engine/src/reconcilers/flux_commit.rs:191-265 | with pushing on, the remote document is the fold of the merges of the successful acts, whatever failed in between |
| FluxCommit.ActEstablishes | reconciler-engine/src/reconcilers/flux_commit.rs:191-265 | after a successful act the remote meets its patch |
| FluxCommit.CommitsAtMostOnce | reconciler-engine/src/reconcilers/flux_commit.rs:219-227 | a spec that has succeeded commits no more while only acts that cannot undo it intervene |
| FluxCommit.DryRunNeverReachesTheRemote | reconciler-engine/src/reconcilers/flux_commit.rs:244-253 | in a dry run the remote never changes, and repeating an act repeats its outcome |
| Compliance.Summarise | validation-api/src/routes/rest.rs:364-404 | the REST loop reports the counts per phase and verdict, the blocking digests in order, and a state said without the loop |
| Compliance.ComplianceState | validation-api/src/routes/graphql.rs:66-80 | the GraphQL loop with its early return reports the worst severity |
| Compliance.ViewsAgree | validation-api/src/routes/graphql.rs:66-80 | for any validations the two views agree exactly when some validation blocks if and only if some severity is critical |
| Gates.GatesHold | validation-controllers/src/image_validation.rs:377-446 | over every run, deletes included: every stored decision is one the gate made, for some validation, children and time |
| Compliance.ViewsAgreeOnEveryRun | validation-api/src/routes/rest.rs:377-388 | over every run, deletes included, and for whatever versions of the validations the projection holds: the two views report the same state, and it is the highest severity among the decisions |
| Compliance.OneEntryPerBlockingValidation | validation-api/src/routes/rest.rs:381-383 | one blocking entry per failed or quarantined validation |
| Compliance.BlockingIsInOrder | validation-api/src/routes/rest.rs:381-383 | the blocking entries keep the order of the validations |
| Compliance.CountsByName | validation-api/src/routes/rest.rs:368-380 | each phase and each verdict is counted under its own name |
| Compliance.CountsAgreeOnEveryRun | validation-api/src/routes/rest.rs:368-383 | over every run, deletes included: as many blocking entries as validations counted under the phase Failed and under the verdict Failed; passed alike by phase and verdict; none quarantined |
| Compliance.StatesInPlainWords | validation-api/src/routes/graphql.rs:66-80 | what each of the two states says of the verdicts and severities |
| Compliance.PhaseCountsAddUp | validation-api/src/routes/rest.rs:368-375 | the phase counts add up to the number of validations |

## Left out

- Kubernetes, HTTP, git, registries, NATS, the database and the scheduler: each call is an environment step or an
  answer of an arbitrary function, failures included; request and response formats are not modelled.
- Condition lists, drift reasons, labels, owner references and the `pods_ready_over_total` text: carried along by the
  code and read by nothing that is modelled.
- Events FindingRecorded and ReconcilerDispatched: published once per finding and per row, and they change no state.
- Stale reads and several replicas of one controller: the code has no resource-version checks, so the pipeline
  theorems are about serialised reconciles with fresh reads.
- The leaf reconcilers cartorio_admit, ghcr_tag_revoke and harbor_mirror: once a spec deserialises, any answers, also
  ones that depend on all earlier calls.
- Deleting a validation, and creating it anew under the same name: not a step.
- Aliasing inside one JSON document: a place that `&mut Value` points to is a slot object; a recursive merge works on
  a slot of its own whose value is put back. Rust excludes two such references to one place.
- 32-bit counters of tenants and of the REST summary: unbounded here.
- YAML text: encoding and decoding are an arbitrary pair with decode after encode giving the value back.
- The two clock readings of one gate (decision and terminal time) are one time here.
- In-cluster service URLs: whether a target URL names an in-cluster service, and whether that service is there, are
  arguments of `AssessTarget`.
- Scanner output parsers, the job DAG, the private push, the store, the informer projection, CLI, gRPC, WebSocket and
  OpenAPI: plumbing or library code that would only add easy members.
- PipelineProgress.FairSchedulesFinish: assumes that infinitely often a reconcile of the validation in question runs
  uninterrupted, and that its Kubernetes jobs do not expire before their output is collected; the second is necessary,
  as FinishesIffNotStranded shows.
