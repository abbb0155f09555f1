/** Single reconciles, case by case: what is planned, when, and with which times. */
module PlanLaws {
  import opened Wrappers
  import opened Crds
  import opened Encodings
  import opened Actions
  import opened Security
  import opened Pipeline
  import opened PipelineHistory
  import opened ChildFindings

  // ---- Validations ----

  // A new validation gets its tenant first, under its name, with nothing written in it yet
  lemma PendingCreatesItsTenant(n: string, v: Validation, now: Time)
    ensures var p := PlanPending(n, v, now);
            && p.creates == [EnsureTenant("eph-" + n, Tenant(n, None))]
            && p.next.Some? && p.next.value.phase == Some(Provisioning) && p.next.value.tenantRef == Some("eph-" + n)
  {
  }

  // Provisioning waits exactly while the tenant is there and neither ready nor in use
  lemma ProvisioningWaits(cfg: Config, c: Cluster, n: string, v: Validation, now: Time)
    ensures var name := v.Status().tenantRef.GetOr("eph-" + n);
            var next := PlanProvisioning(cfg, c, n, v, now).next;
            && (next.None? <==> name in c.tenants && !(c.tenants[name].Phase() in {Ready, TenantScanning}))
            && (next.Some? ==> next.value.phase == Some(if name in c.tenants then Scanning else Provisioning))
  {
    hide RequiredScanners;
    assert TenantName(n) == "eph-" + n;
  }

  // What provisioning writes names the job of each scanner that the flags have run, once, and nothing found yet
  lemma FreshSummariesByFlags(cfg: Config, n: string)
    ensures var ss := FreshSummaries(n, RequiredScanners(cfg));
            && |ss| == |ScannersByFlags(cfg)|
            && forall i | 0 <= i < |ss| ::
                 && ss[i].scanner == ScannersByFlags(cfg)[i] && ss[i].phase == JobPending && ss[i].findingsCount == 0
                 && ss[i].name == "sj-" + ScannerKebab(ss[i].scanner) + "-" + n
  {
    hide RequiredScanners, ScannersByFlags;
    RequiredScannersByFlags(cfg);
  }

  // Scanning shows each listed child as it was read, and moves on exactly when all of them have come to an end
  lemma ScanningShowsItsChildren(cfg: Config, c: Cluster, n: string, v: Validation, listing: seq<string>, now: Time)
    requires Lists(c, n, listing) && listing != [] && v.Phase() == Scanning
    ensures var next := PlanScanning(cfg, c, n, v, listing, now).next;
            && next.Some?
            && next.value.phase == (if forall k | k in listing ::
                 c.scanJobs[k].Phase() in {Some(Attested), Some(JobFailed), Some(JobReaped)}
                 then Some(Aggregating) else v.Status().phase)
            && |next.value.scanJobs| == |listing|
            && forall i | 0 <= i < |listing| ::
                 var j, shown := c.scanJobs[listing[i]], next.value.scanJobs[i];
                 && shown.name == listing[i] && shown.scanner == j.scanner
                 && (if j.Phase().Some? then j.Phase() == Some(shown.phase) else shown.phase == JobPending)
                 && shown.findingsCount == if j.status.Some? then j.status.value.findingsCount else 0
  {
  }

  // The clock is read once where a time is first written, and an earlier time stays
  lemma PlansStampTheirTime(cfg: Config, c: Cluster, n: string, listing: seq<string>, now: Time)
    requires n in c.validations && Lists(c, n, listing) && Shape(n, c.validations[n])
    ensures var st, next := c.validations[n].Status(), PlanOf(cfg, c, n, listing, now).next;
            next.Some? ==>
              && next.value.startedAt == (if st.startedAt.Some? then st.startedAt else Some(now))
              && (next.value.gateDecision.Some? ==>
                    next.value.terminalAt == Some(now) && next.value.gateDecision.value.decidedAt == now)
  {
    hide RequiredScanners, DiffOf, DecideOf, Classify, Summaries, Children, Lists;
    ListedJobs(c, n, listing);
  }

  lemma ListedJobs(c: Cluster, n: string, listing: seq<string>)
    requires Lists(c, n, listing)
    ensures forall k | k in listing :: k in c.scanJobs
  {
  }

  // After a status write: the change of phase, if there is one, and then the first decision, if it came with it
  lemma EmittedInOrder(v: Validation, next: ValidationStatus)
    requires next.phase.Some?
    ensures var changes, decides := next.phase.value != v.Phase(),
              v.Status().gateDecision.None? && next.gateDecision.Some?;
            var es := Emitted(v, next);
            && |es| == (if changes then 1 else 0) + (if decides then 1 else 0)
            && (changes ==> es[0] == PhaseChanged(v.uid, v.Phase(), next.phase.value))
            && (decides ==>
                  var gate := next.gateDecision.value;
                  es[|es| - 1] == DecisionEmitted(v.uid, gate.severity, gate.verdict))
  {
  }

  // ---- Decisions ----

  // Failed is for an automatic correction of something critical, quarantined for whatever needs a person
  lemma VerdictsByDecision(severity: Severity, d: Decision)
    ensures VerdictOf(severity, d) == VerdictFailed <==> d.AutoCorrect? && severity == Critical
    ensures VerdictOf(severity, d) == VerdictQuarantined <==> d.RequireApproval? || d.SuppressedAfterRepeatedFailure?
    ensures PhaseFor(VerdictOf(severity, d)) == Phase.Failed <==> d.AutoCorrect? && severity == Critical
    ensures PhaseFor(VerdictOf(severity, d)) == Quarantined <==> d.RequireApproval? || d.SuppressedAfterRepeatedFailure?
  {
  }

  // An action is kept exactly where there is one and remediation is on
  lemma ActionsByDecision(cfg: Config, d: Decision, a: TypedAction)
    ensures ActionOf(cfg, d) == Some(a) <==> !cfg.scanOnly && (d == AutoCorrect(a) || d == RequireApproval(a))
  {
  }

  // ---- Tenants ----

  // Settled tenants stay as they are; one that is torn down is reaped; any other goes where its target is
  lemma TenantsByPhaseAndTarget(t: Tenant, target: Target, now: Time)
    ensures var after := TenantAfter(t, target, now);
            var was := t.status.GetOr(DEFAULT_TENANT_STATUS);
            && after.parent == t.parent
            && (t.Phase() in {Ready, TenantScanning, TenantReaped, TenantFailed} ==> after == t)
            && (t.Phase() == Teardown ==>
                  after.status == Some(was.(phase := Some(TenantReaped), teardownStartedAt := Some(now))))
            && (t.Phase() in {TenantPending, InfraProvisioning, ChartRendering, PodsRunning} ==>
                  && after.status.Some?
                  && var st := after.status.value;
                     && st.allocatedAt == Some(was.allocatedAt.GetOr(now))
                     && st.teardownStartedAt == was.teardownStartedAt
                     && match target
                        case ReadyAt(url) =>
                          st.phase == Some(Ready) && st.readyAt == Some(now) && st.ingressUrl == Some(url) &&
                            st.podsReady == 1 && st.podsTotal == 1
                        case NoTargetFed =>
                          st.phase == Some(Ready) && st.readyAt == Some(now) && st.ingressUrl == was.ingressUrl &&
                            st.podsReady == 0 && st.podsTotal == 0
                        case Waiting(url) =>
                          st.phase == Some(PodsRunning) && st.readyAt == was.readyAt && st.ingressUrl == Some(url) &&
                            st.podsReady == was.podsReady && st.podsTotal == was.podsTotal)
  {
  }

  ghost predicate AllocationKept(a: Cluster, b: Cluster, k: string) {
    k in a.tenants && k in b.tenants && a.tenants[k].status.Some? && a.tenants[k].status.value.allocatedAt.Some? ==>
      b.tenants[k].status.Some? && b.tenants[k].status.value.allocatedAt == a.tenants[k].status.value.allocatedAt
  }

  lemma TenantStepKeepsAllocation(t: Tenant, target: Target, now: Time)
    ensures t.status.Some? && t.status.value.allocatedAt.Some? ==>
              var after := TenantAfter(t, target, now);
              after.status.Some? && after.status.value.allocatedAt == t.status.value.allocatedAt
  {
  }

  // Whatever happens to a tenant short of its deletion: it is allocated once
  lemma AllocatedOnce(cfg: Config, s: System, step: Step, k: string)
    ensures AllocationKept(s.c, Next(cfg, s, step).c, k)
  {
    hide PlanOf, TenantAfter, ScanJobNext, HandleDelivery, MayObserve, BuildReceipt, EffectAt, EffectCount, Lists,
      StampedBy;
    if step.ReconcileTenant? && step.tenantName in s.c.tenants {
      TenantStepKeepsAllocation(s.c.tenants[step.tenantName], step.target, step.now);
    }
  }

  // ---- Scan jobs ----

  // One phase on at a time; the report is taken, counted and hashed at the last one, when the output is there
  lemma ScanJobsByPhase(cfg: Config, j: ScanJob, finished: bool, report: seq<Finding>)
    ensures var after := ScanJobNext(cfg, j, finished, report);
            var p := j.Phase().GetOr(JobPending);
            && after.scanner == j.scanner && after.parent == j.parent && after.targetTenantUrl == j.targetTenantUrl
            && (p == JobPending ==> after.Phase() == Some(Forking))
            && (p == Forking ==> after.Phase() == Some(Execing))
            && (p == Execing ==> after.Phase() == Some(Running))
            && (p == Running && finished ==> after.status == Some(ScanJobStatus(Some(Attested), report, |report|,
                  Some(cfg.blake3(report)))))
            && ((p == Running && !finished) || p !in {JobPending, Forking, Execing, Running} ==> after == j)
            && (p in {JobPending, Forking, Execing} ==> after.Findings() == j.Findings())
  {
  }

  // Its Kubernetes job is created with its first reconcile, unfinished, and at no other time
  lemma KubernetesJobsAreCreatedOnce(cfg: Config, c: Cluster, name: string, report: seq<Finding>, crashed: bool,
    k: string)
    requires name in c.scanJobs
    ensures var d := ScanJobStepped(cfg, c, name, report, crashed);
            && (k in d.jobs && k !in c.jobs <==>
                  k == name && name !in c.jobs && c.scanJobs[name].Phase().GetOr(JobPending) == JobPending)
            && (k in c.jobs ==> k in d.jobs && d.jobs[k] == c.jobs[k])
            && (k in d.jobs && k !in c.jobs ==> !d.jobs[k])
            && (crashed ==> d.scanJobs == c.scanJobs)
  {
    hide ScanJobNext;
  }
}
