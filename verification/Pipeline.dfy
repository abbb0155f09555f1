/** The validation pipeline: what each reconcile reads and plans, and the steps the controllers and
    their environment take in any order. */
module Pipeline {
  import opened Wrappers
  import opened Crds
  import opened Encodings
  import opened Evidence
  import opened Actions
  import opened Security

  // ---- Stored objects ----

  // An action of None is the empty object `{}`, which is no typed action
  datatype GateDecision = GateDecision(
    severity: Severity, verdict: Verdict, action: Option<TypedAction>, decidedAt: Time)

  datatype ValidationStatus = ValidationStatus(
    phase: Option<Phase>, tenantRef: Option<string>, scanJobs: seq<Summary>, evidenceHash: Option<string>,
    cartorioState: Option<ArtifactState>, gateDecision: Option<GateDecision>, receipt: Option<Receipt>,
    startedAt: Option<Time>, terminalAt: Option<Time>, observedGeneration: int)

  const DEFAULT_STATUS := ValidationStatus(None, None, [], None, None, None, None, None, None, 0)

  datatype Validation = Validation(
    imageDigest: string, service: string, uid: string, generation: int, status: Option<ValidationStatus>)
  {
    function Status(): ValidationStatus { status.GetOr(DEFAULT_STATUS) }

    function Phase(): Phase { Status().phase.GetOr(Pending) }
  }

  datatype Event =
    | PhaseChanged(run: string, from: Phase, to: Phase)
    | DecisionEmitted(run: string, severity: Severity, verdict: Verdict)

  // Everything the API server stores, and the events published so far.
  // `jobs` holds the Kubernetes job of each scan job and whether it has finished.
  datatype Cluster = Cluster(
    validations: map<string, Validation>, tenants: map<string, Tenant>, scanJobs: map<string, ScanJob>,
    jobs: map<string, bool>, events: seq<Event>)

  // Deployment flags, and the hash over canonical findings and over receipt texts
  datatype Config = Config(
    scanOnly: bool, dast: bool, source: bool, blake3: seq<Finding> -> string, blake3Text: string -> string)

  // ---- Which scanners run ----

  function Achievable(cfg: Config, s: Scanner): bool {
    match TargetFieldOf(s)
    case TenantUrlTarget => cfg.dast
    case SourceTarget => cfg.source
    case DigestTarget => true
    case NoTarget => true
  }

  function SpecFor(cfg: Config): SecuritySpec {
    var spec := if cfg.scanOnly then SCAN_ONLY_SPEC else DEFAULT_SPEC;
    spec.(requiredScanners := set s | s in spec.requiredScanners && Achievable(cfg, s))
  }

  // The required scanners in the order of the ordered set they come from
  function RequiredScanners(cfg: Config): seq<Scanner> {
    Difference(ALL_SCANNERS, SpecFor(cfg).requiredScanners, {})
  }

  // ---- Children ----

  // A listing of the scan jobs of n: each once, in any order
  predicate Lists(c: Cluster, n: string, listing: seq<string>) {
    && (forall i, j | 0 <= i < j < |listing| :: listing[i] != listing[j])
    && (forall k | k in listing :: k in c.scanJobs && c.scanJobs[k].parent == n)
    && (forall k | k in c.scanJobs && c.scanJobs[k].parent == n :: k in listing)
  }

  function Children(c: Cluster, listing: seq<string>): seq<ScanJob>
    requires forall k | k in listing :: k in c.scanJobs
  {
    seq(|listing|, i requires 0 <= i < |listing| => c.scanJobs[listing[i]])
  }

  predicate TerminalJob(j: ScanJob) {
    j.Phase() == Some(Attested) || j.Phase() == Some(JobFailed) || j.Phase() == Some(JobReaped)
  }

  function SummaryOf(name: string, j: ScanJob): Summary {
    Summary(name, j.scanner, j.Phase().GetOr(JobPending), if j.status.Some? then j.status.value.findingsCount else 0)
  }

  // ---- The gate ----

  function Reported(children: seq<ScanJob>): set<Scanner> {
    set j | j in children :: j.scanner
  }

  function Snapshot(v: Validation, children: seq<ScanJob>, now: Time): SecuritySnapshot {
    SecuritySnapshot(
      [DigestObservation(v.imageDigest, v.service, ArtifactPending, AllFindings(children), {}, Reported(children))],
      now)
  }

  function VerdictOf(severity: Severity, d: Decision): Verdict {
    match d
    case NoAction => VerdictPassed
    case AutoCorrect(_) => if severity == Critical then VerdictFailed else VerdictPassed
    case RequireApproval(_) => VerdictQuarantined
    case Alert => VerdictPassed
    case SuppressedAfterRepeatedFailure(_) => VerdictQuarantined
  }

  function ActionOf(cfg: Config, d: Decision): Option<TypedAction> {
    if cfg.scanOnly then None
    else if d.AutoCorrect? || d.RequireApproval? then Some(d.action)
    else None
  }

  function GateOf(cfg: Config, v: Validation, children: seq<ScanJob>, now: Time): GateDecision {
    var spec := SpecFor(cfg);
    var snapshot := Snapshot(v, children, now);
    var drift := DiffOf(spec, snapshot.observedAt, snapshot.imageDigests);
    var severity := Classify(drift);
    var decision := DecideOf(spec, severity, drift);
    GateDecision(severity, VerdictOf(severity, decision), ActionOf(cfg, decision), now)
  }

  function PhaseFor(v: Verdict): Phase {
    match v case VerdictPassed => Passed case VerdictFailed => Phase.Failed case VerdictQuarantined => Quarantined
  }

  // ---- What one reconcile of a validation does ----

  datatype Effect =
    | EnsureTenant(tenantName: string, tenant: Tenant)
    | EnsureScanJob(jobName: string, job: ScanJob)
    | PatchStatus(status: ValidationStatus)
    | Publish(event: Event)

  // Children to create first, then the status to write, if any
  datatype Plan = Plan(creates: seq<Effect>, next: Option<ValidationStatus>)

  function PlanPending(n: string, v: Validation, now: Time): Plan {
    var st := v.Status();
    Plan([EnsureTenant(TenantName(n), Tenant(n, None))],
         Some(st.(phase := Some(Provisioning), tenantRef := Some(TenantName(n)),
                  startedAt := st.startedAt.Or(Some(now)), observedGeneration := v.generation)))
  }

  function NewScanJob(n: string, tenant: Tenant, s: Scanner): ScanJob {
    ScanJob(s, n,
            if TargetFieldOf(s) == TenantUrlTarget && tenant.status.Some? then tenant.status.value.ingressUrl else None,
            None)
  }

  function CreateScanJobs(n: string, tenant: Tenant, scanners: seq<Scanner>): seq<Effect> {
    seq(|scanners|, i requires 0 <= i < |scanners| =>
      EnsureScanJob(ScanJobName(scanners[i], n), NewScanJob(n, tenant, scanners[i])))
  }

  function FreshSummaries(n: string, scanners: seq<Scanner>): seq<Summary> {
    seq(|scanners|, i requires 0 <= i < |scanners| =>
      Summary(ScanJobName(scanners[i], n), scanners[i], JobPending, 0))
  }

  function PlanProvisioning(cfg: Config, c: Cluster, n: string, v: Validation, now: Time): Plan {
    var st := v.Status();
    var tenantName := st.tenantRef.GetOr(TenantName(n));
    if tenantName !in c.tenants then PlanPending(n, v, now)
    else
      var tenant := c.tenants[tenantName];
      if tenant.Phase() != Ready && tenant.Phase() != TenantScanning then Plan([], None)
      else
        var scanners := RequiredScanners(cfg);
        Plan(CreateScanJobs(n, tenant, scanners),
             Some(st.(phase := Some(Scanning), scanJobs := FreshSummaries(n, scanners),
               observedGeneration := v.generation)))
  }

  function Summaries(c: Cluster, listing: seq<string>): seq<Summary>
    requires forall k | k in listing :: k in c.scanJobs
  {
    seq(|listing|, i requires 0 <= i < |listing| => SummaryOf(listing[i], c.scanJobs[listing[i]]))
  }

  function PlanScanning(cfg: Config, c: Cluster, n: string, v: Validation, listing: seq<string>, now: Time): Plan
    requires forall k | k in listing :: k in c.scanJobs
  {
    if listing == [] then PlanProvisioning(cfg, c, n, v, now)
    else
      var st := v.Status().(scanJobs := Summaries(c, listing), observedGeneration := v.generation);
      var done := forall k | k in listing :: TerminalJob(c.scanJobs[k]);
      Plan([], Some(if done then st.(phase := Some(Aggregating)) else st))
  }

  function PlanAggregating(cfg: Config, c: Cluster, v: Validation, listing: seq<string>): Plan
    requires forall k | k in listing :: k in c.scanJobs
  {
    var evidence := cfg.blake3(Canonical(AllFindings(Children(c, listing))));
    Plan([], Some(v.Status().(phase := Some(Attesting), evidenceHash := Some(evidence),
      observedGeneration := v.generation)))
  }

  function PlanAttesting(v: Validation): Plan {
    Plan([], Some(v.Status().(phase := Some(Gating), cartorioState := Some(ArtifactPending),
      observedGeneration := v.generation)))
  }

  function PlanGating(cfg: Config, c: Cluster, v: Validation, listing: seq<string>, now: Time): Plan
    requires forall k | k in listing :: k in c.scanJobs
  {
    var gate := GateOf(cfg, v, Children(c, listing), now);
    Plan([], Some(v.Status().(gateDecision := Some(gate), phase := Some(PhaseFor(gate.verdict)),
                              terminalAt := Some(now), observedGeneration := v.generation)))
  }

  function PlanOf(cfg: Config, c: Cluster, n: string, listing: seq<string>, now: Time): Plan
    requires n in c.validations && forall k | k in listing :: k in c.scanJobs
  {
    var v := c.validations[n];
    match v.Phase()
    case Pending => PlanPending(n, v, now)
    case Provisioning => PlanProvisioning(cfg, c, n, v, now)
    case Scanning => PlanScanning(cfg, c, n, v, listing, now)
    case Aggregating => PlanAggregating(cfg, c, v, listing)
    case Attesting => PlanAttesting(v)
    case Gating => PlanGating(cfg, c, v, listing, now)
    case _ => Plan([], None)
  }

  // The events published after the patch
  function Emitted(v: Validation, next: ValidationStatus): seq<Event> {
    (if next.phase.Some? && next.phase.value != v.Phase() then [PhaseChanged(v.uid, v.Phase(), next.phase.value)]
      else []) +
    (if v.Status().gateDecision.None? && next.gateDecision.Some?
     then [DecisionEmitted(v.uid, next.gateDecision.value.severity, next.gateDecision.value.verdict)] else [])
  }

  // A reconcile runs its plan effect by effect: the creations, the status write, then the events
  function EffectCount(p: Plan, v: Validation): nat {
    |p.creates| + if p.next.Some? then 1 + |Emitted(v, p.next.value)| else 0
  }

  function EffectAt(p: Plan, v: Validation, i: nat): Effect
    requires i < EffectCount(p, v)
  {
    if i < |p.creates| then p.creates[i]
    else if i == |p.creates| then PatchStatus(p.next.value)
    else Publish(Emitted(v, p.next.value)[i - |p.creates| - 1])
  }

  function ApplyEffect(c: Cluster, n: string, e: Effect): Cluster {
    match e
    case EnsureTenant(name, tenant) => if name in c.tenants then c else c.(tenants := c.tenants[name := tenant])
    case EnsureScanJob(name, job) => if name in c.scanJobs then c else c.(scanJobs := c.scanJobs[name := job])
    case PatchStatus(status) =>
      if n in c.validations then c.(validations := c.validations[n := c.validations[n].(status := Some(status))]) else c
    case Publish(event) => c.(events := c.events + [event])
  }

  // The cluster after the first k effects. A publish that fails is logged and its event dropped; `delivered`
  // says of each effect whether its event, if it publishes one, arrives.
  function ApplyEffects(c: Cluster, n: string, p: Plan, v: Validation, k: nat, delivered: nat -> bool): Cluster
    requires k <= EffectCount(p, v)
  {
    if k == 0 then c
    else
      var before := ApplyEffects(c, n, p, v, k - 1, delivered);
      if Dropped(p, v, k - 1, delivered) then before else ApplyEffect(before, n, EffectAt(p, v, k - 1))
  }

  predicate Dropped(p: Plan, v: Validation, i: nat, delivered: nat -> bool)
    requires i < EffectCount(p, v)
  {
    EffectAt(p, v, i).Publish? && !delivered(i)
  }

  // ---- The other controllers ----

  datatype Target = ReadyAt(url: string) | Waiting(url: string) | NoTargetFed

  function TenantNext(t: Tenant, target: Target, now: Time): Option<TenantStatus> {
    match t.Phase()
    case Ready => None case TenantScanning => None case TenantReaped => None case TenantFailed => None
    case Teardown => Some(t.status.GetOr(DEFAULT_TENANT_STATUS).(phase := Some(TenantReaped),
      teardownStartedAt := Some(now)))
    case _ =>
      var st := t.status.GetOr(DEFAULT_TENANT_STATUS);
      var seen := st.(allocatedAt := st.allocatedAt.Or(Some(now)));
      match target
      case ReadyAt(url) =>
        Some(seen.(phase := Some(Ready), readyAt := Some(now), ingressUrl := Some(url), podsReady := 1, podsTotal := 1))
      case NoTargetFed =>
        Some(seen.(phase := Some(Ready), readyAt := Some(now), ingressUrl := None, podsReady := 0, podsTotal := 0))
      case Waiting(url) =>
        Some(seen.(phase := Some(PodsRunning), ingressUrl := Some(url)))
  }

  // The status is written as a merge patch from which absent fields are left out, so an absent field
  // of the new status does not clear the stored one
  function TenantPatched(stored: TenantStatus, next: TenantStatus): TenantStatus {
    next.(phase := next.phase.Or(stored.phase), ingressUrl := next.ingressUrl.Or(stored.ingressUrl),
          allocatedAt := next.allocatedAt.Or(stored.allocatedAt), readyAt := next.readyAt.Or(stored.readyAt),
          teardownStartedAt := next.teardownStartedAt.Or(stored.teardownStartedAt))
  }

  function TenantAfter(t: Tenant, target: Target, now: Time): Tenant {
    var next := TenantNext(t, target, now);
    if next.None? then t
    else t.(status := Some(TenantPatched(t.status.GetOr(DEFAULT_TENANT_STATUS), next.value)))
  }

  const DEFAULT_JOB_STATUS := ScanJobStatus(None, [], 0, None)

  function PatchJob(j: ScanJob, phase: ScanJobPhase): ScanJob {
    j.(status := Some(j.status.GetOr(DEFAULT_JOB_STATUS).(phase := Some(phase))))
  }

  // The parsers stamp every finding with the scanner whose output they read
  predicate StampedBy(s: Scanner, report: seq<Finding>) {
    forall f | f in report :: f.scanner == s
  }

  // The scan job after one reconcile; `finished` says whether its Kubernetes job exists and is done,
  // `report` is what the pod's logs parse to at that moment
  function ScanJobNext(cfg: Config, j: ScanJob, finished: bool, report: seq<Finding>): ScanJob {
    match j.Phase().GetOr(JobPending)
    case JobPending => PatchJob(j, Forking)
    case Forking => PatchJob(j, Execing)
    case Execing => PatchJob(j, Running)
    case Running =>
      if !finished then j
      else
        j.(status := Some(j.status.GetOr(DEFAULT_JOB_STATUS).(
             phase := Some(Attested), findings := report, findingsCount := |report|,
             attestation := Some(cfg.blake3(report)))))
    case _ => j
  }

  // One reconcile of a scan job creates its Kubernetes job when it is pending, then writes its status; a
  // crash falls between the two
  function ScanJobStepped(cfg: Config, c: Cluster, name: string, report: seq<Finding>, crashed: bool): Cluster
    requires name in c.scanJobs
  {
    var j := c.scanJobs[name];
    var jobs := if j.Phase().GetOr(JobPending) == JobPending && name !in c.jobs then c.jobs[name := false] else c.jobs;
    if crashed then c.(jobs := jobs)
    else c.(jobs := jobs, scanJobs := c.scanJobs[name := ScanJobNext(cfg, j, name in c.jobs && c.jobs[name], report)])
  }

  function PartsOf(v: Validation): ReceiptParts {
    var st := v.Status();
    var verdict := if st.gateDecision.Some? then VerdictDebug(st.gateDecision.value.verdict) else "";
    var severity := if st.gateDecision.Some? then SeverityDebug(st.gateDecision.value.severity) else "";
    ReceiptParts(v.service, v.imageDigest, verdict, severity, st.evidenceHash.GetOr(""))
  }

  function BuildReceipt(cfg: Config, v: Validation, now: Time): Receipt {
    Receipt(cfg.blake3Text(ReceiptText(PartsOf(v))), now)
  }

  function Receipted(cfg: Config, c: Cluster, n: string, observed: Validation, now: Time): Cluster
    requires n in c.validations
  {
    var v := c.validations[n];
    var sealed := v.Status().(receipt := Some(BuildReceipt(cfg, observed, now)));
    c.(validations := c.validations[n := v.(status := Some(sealed))])
  }

  function VerdictDebug(v: Verdict): string {
    match v case VerdictPassed => "Passed" case VerdictFailed => "Failed" case VerdictQuarantined => "Quarantined"
  }

  function SeverityDebug(s: Severity): string {
    match s case Cosmetic => "Cosmetic" case Functional => "Functional" case Critical => "Critical"
  }

  // ---- The whole system ----

  // A reconcile in progress: what it read when it began, what it planned from that, and how many of
  // the plan's effects have happened
  datatype Flight = Flight(read: Cluster, v: Validation, listing: seq<string>, now: Time, plan: Plan, done: nat)
  {
    // The status write of this reconcile has happened
    predicate Patched() { plan.next.Some? && done > |plan.creates| }

    predicate Over() { done >= EffectCount(plan, v) }
  }

  // One gate decision of one run
  datatype DispatchKey = DispatchKey(run: string, decidedAt: Time)

  datatype Dispatch = Dispatch(process: nat, key: DispatchKey, action: TypedAction)

  // `lost` holds the validations of which an event was dropped, or a reconcile died between its status write
  // and the last of its events
  datatype System = System(
    c: Cluster, flights: map<string, Flight>, lost: set<string>,
    process: nat, seen: set<DispatchKey>, dispatches: seq<Dispatch>)

  datatype Step =
    // controllers
    | Begin(n: string, listing: seq<string>, now: Time)
    | Continue(n: string)
    | DropEvent(n: string)
    | Crash(n: string)
    | ReconcileTenant(tenantName: string, target: Target, now: Time)
    | ReconcileScanJob(jobName: string, report: seq<Finding>, crashed: bool)
    | AppendReceipt(n: string, observed: Validation, now: Time)
    | Deliver(n: string, observed: Validation)
    | RestartDispatcher
    // environment
    | CreateValidation(n: string, imageDigest: string, service: string, uid: string, generation: int)
    | FinishJob(jobName: string)
    | ExpireJob(jobName: string)
    // external deletes
    | DeleteTenant(tenantName: string)
    | DeleteScanJob(jobName: string)

  predicate IsDelete(step: Step) { step.DeleteTenant? || step.DeleteScanJob? }

  // Watch events may lag: a delivered object is some version of the validation, without its decision or
  // with it; a version that shows a final phase shows everything that was final with it
  predicate MayObserve(observed: Validation, v: Validation) {
    var seen, now := observed.Status(), v.Status();
    && observed.uid == v.uid && observed.imageDigest == v.imageDigest && observed.service == v.service
    && (seen.gateDecision.None? || seen.gateDecision == now.gateDecision)
    && (observed.Phase().Terminal() ==>
          v.Phase() == observed.Phase() && now.gateDecision == seen.gateDecision &&
            now.evidenceHash == seen.evidenceHash)
  }

  // The dispatcher's handling of one delivered object: the new dedupe set and the action to execute, if any
  function HandleDelivery(seen: set<DispatchKey>, observed: Validation): (set<DispatchKey>, Option<TypedAction>) {
    var gate := observed.Status().gateDecision;
    if gate.None? then (seen, None)
    else
      var key := DispatchKey(observed.uid, gate.value.decidedAt);
      if key in seen then (seen, None) else (seen + {key}, gate.value.action)
  }

  function ContinueFlight(s: System, n: string): System
    requires n in s.flights
  {
    var f := s.flights[n];
    if f.Over() then s.(flights := s.flights - {n})
    else
      s.(c := ApplyEffect(s.c, n, EffectAt(f.plan, f.v, f.done)), flights := s.flights[n := f.(done := f.done + 1)])
  }

  // The next effect is to publish an event, and the publish fails: the reconcile goes on without it
  function DropFlight(s: System, n: string): System
    requires n in s.flights
  {
    var f := s.flights[n];
    if f.Patched() && !f.Over() then s.(flights := s.flights[n := f.(done := f.done + 1)], lost := s.lost + {n}) else s
  }

  function CrashFlight(s: System, n: string): System
    requires n in s.flights
  {
    var f := s.flights[n];
    s.(flights := s.flights - {n}, lost := if f.Patched() && !f.Over() then s.lost + {n} else s.lost)
  }

  // A step that is not possible in the current state changes nothing
  function Next(cfg: Config, s: System, step: Step): System {
    var c := s.c;
    match step
    case Begin(n, listing, now) =>
      if n in c.validations && n !in s.flights && Lists(c, n, listing)
      then s.(flights := s.flights[n := Flight(c, c.validations[n], listing, now, PlanOf(cfg, c, n, listing, now),
        0)]) else s
    case Continue(n) => if n in s.flights then ContinueFlight(s, n) else s
    case DropEvent(n) => if n in s.flights then DropFlight(s, n) else s
    case Crash(n) => if n in s.flights then CrashFlight(s, n) else s
    case ReconcileTenant(name, target, now) =>
      if name in c.tenants
      then s.(c := c.(tenants := c.tenants[name := TenantAfter(c.tenants[name], target, now)])) else s
    case ReconcileScanJob(name, report, crashed) =>
      if name in c.scanJobs && StampedBy(c.scanJobs[name].scanner, report)
      then s.(c := ScanJobStepped(cfg, c, name, report, crashed)) else s
    case AppendReceipt(n, observed, now) =>
      if n in c.validations && MayObserve(observed, c.validations[n])
         && observed.Phase().Terminal() && observed.Status().receipt.None? then
        s.(c := Receipted(cfg, c, n, observed, now))
      else s
    case Deliver(n, observed) =>
      if n in c.validations && MayObserve(observed, c.validations[n]) then
        var (seen, action) := HandleDelivery(s.seen, observed);
        var gate := observed.Status().gateDecision;
        s.(seen := seen,
           dispatches := if action.Some? && gate.Some?
                         then s.dispatches + [Dispatch(s.process, DispatchKey(observed.uid, gate.value.decidedAt),
                           action.value)]
                         else s.dispatches)
      else s
    case RestartDispatcher => s.(process := s.process + 1, seen := {})
    case CreateValidation(n, imageDigest, service, uid, generation) =>
      if n !in c.validations && forall m | m in c.validations :: c.validations[m].uid != uid
      then
        var v := Validation(imageDigest, service, uid, generation, None);
        s.(c := c.(validations := c.validations[n := v]))
      else s
    case FinishJob(name) =>
      if name in c.jobs then s.(c := c.(jobs := c.jobs[name := true])) else s
    case ExpireJob(name) =>
      if name in c.jobs && c.jobs[name] then s.(c := c.(jobs := c.jobs - {name})) else s
    case DeleteTenant(name) => s.(c := c.(tenants := c.tenants - {name}))
    case DeleteScanJob(name) => s.(c := c.(scanJobs := c.scanJobs - {name}))
  }

  const EMPTY_SYSTEM := System(Cluster(map[], map[], map[], map[], []), map[], {}, 0, {}, [])

  function Run(cfg: Config, s: System, steps: seq<Step>): System {
    if steps == [] then s else Next(cfg, Run(cfg, s, steps[..|steps| - 1]), steps[|steps| - 1])
  }
}
