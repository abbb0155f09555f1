/** What a dynamic scan is aimed at: the tenant controller's URL, as the validation controller passed it on. */
module DastTargets {
  import opened Wrappers
  import opened Crds
  import opened Encodings
  import opened Pipeline
  import opened PipelineHistory
  import opened ChildFindings
  import opened PipelineSafety

  predicate Open(t: Tenant) {
    t.Phase() == Ready || t.Phase() == TenantScanning
  }

  // A tenant that is ready stays as it is
  ghost predicate OpenStays(a: Cluster, b: Cluster) {
    forall k | k in a.tenants && Open(a.tenants[k]) :: k in b.tenants && b.tenants[k] == a.tenants[k]
  }

  // A dynamic scanner is aimed at the URL its tenant is ready under, any other at no tenant
  predicate AimedAt(j: ScanJob, t: Tenant) {
    && Open(t)
    && j.targetTenantUrl == if TargetFieldOf(j.scanner) == TenantUrlTarget &&
      t.status.Some? then t.status.value.ingressUrl else None
  }

  ghost predicate Aimed(c: Cluster) {
    forall k | k in c.scanJobs ::
      TenantName(c.scanJobs[k].parent) in c.tenants &&
        AimedAt(c.scanJobs[k], c.tenants[TenantName(c.scanJobs[k].parent)])
  }

  ghost predicate AimOk(s: System) {
    Aimed(s.c) && forall n | n in s.flights :: OpenStays(s.flights[n].read, s.c)
  }

  lemma AimStays(a: Cluster, b: Cluster)
    requires Aimed(a) && OpenStays(a, b)
    requires forall k | k in b.scanJobs :: k in a.scanJobs && b.scanJobs[k].parent == a.scanJobs[k].parent
               && b.scanJobs[k].scanner == a.scanJobs[k].scanner &&
                 b.scanJobs[k].targetTenantUrl == a.scanJobs[k].targetTenantUrl
    ensures Aimed(b)
  {
    hide TenantName;
  }

  lemma CreatedJobIsAimed(cfg: Config, c: Cluster, n: string, listing: seq<string>, now: Time, i: nat)
    requires n in c.validations && Lists(c, n, listing) && Shape(n, c.validations[n])
    requires i < |PlanOf(cfg, c, n, listing, now).creates|
    ensures var e := PlanOf(cfg, c, n, listing, now).creates[i];
            e.EnsureScanJob? ==>
              e.job.parent == n && TenantName(n) in c.tenants && AimedAt(e.job, c.tenants[TenantName(n)])
  {
    hide RequiredScanners, ScanJobName, GateOf, Summaries;
  }

  lemma EffectAims(a: Cluster, n: string, e: Effect)
    requires Aimed(a)
    requires e.EnsureScanJob? ==>
               TenantName(e.job.parent) in a.tenants && AimedAt(e.job, a.tenants[TenantName(e.job.parent)])
    ensures Aimed(ApplyEffect(a, n, e)) && OpenStays(a, ApplyEffect(a, n, e))
  {
    hide AimedAt, TenantName;
  }

  lemma OpenStaysTrans(a: Cluster, b: Cluster, c: Cluster)
    requires OpenStays(a, b) && OpenStays(b, c)
    ensures OpenStays(a, c)
  {
  }

  lemma NextEffectAims(cfg: Config, s: System, k: string)
    requires SafeOk(cfg, s) && AimOk(s) && k in s.flights && !s.flights[k].Over()
    ensures var c := ApplyEffect(s.c, k, EffectAt(s.flights[k].plan, s.flights[k].v, s.flights[k].done));
            Aimed(c) && OpenStays(s.c, c)
  {
    hide ValidationsOk, EventsOk, DispatchOk, EventsKnown, Shape, Emitted, PlanOf, ApplyEffect, Aimed, AimedAt,
      ValidationOk, JobsOk, Created;
    var f := s.flights[k];
    assert FlightSafe(cfg, s.c, k, f) && FlightOk(s.c, k, f);
    if f.done < |f.plan.creates| {
      CreatedJobIsAimed(cfg, f.read, k, f.listing, f.now, f.done);
      var e := EffectAt(f.plan, f.v, f.done);
      if e.EnsureScanJob? { AimedIsOpen(e.job, f.read.tenants[TenantName(k)]); }
    }
    EffectAims(s.c, k, EffectAt(f.plan, f.v, f.done));
  }

  lemma AimedIsOpen(j: ScanJob, t: Tenant)
    requires AimedAt(j, t)
    ensures Open(t)
  {
  }

  lemma StepAims(cfg: Config, s: System, step: Step)
    requires SafeOk(cfg, s) && AimOk(s) && !IsDelete(step)
    ensures Aimed(Next(cfg, s, step).c) && OpenStays(s.c, Next(cfg, s, step).c)
  {
    hide SafeOk, Open, PlanOf, HandleDelivery, BuildReceipt, ApplyEffect, AimedAt, EffectAt, EffectCount, StampedBy,
      Lists, MayObserve, TenantAfter;
    if step.Continue? && step.n in s.flights {
      if !s.flights[step.n].Over() { NextEffectAims(cfg, s, step.n); }
    } else if step.ReconcileTenant? && step.tenantName in s.c.tenants {
      OpenTenantStays(s.c.tenants[step.tenantName], step.target, step.now);
      AimStays(s.c, Next(cfg, s, step).c);
    } else {
      AimStays(s.c, Next(cfg, s, step).c);
    }
  }

  lemma OpenTenantStays(t: Tenant, target: Target, now: Time)
    ensures Open(t) ==> TenantAfter(t, target, now) == t
  {
  }

  lemma StepKeepsAim(cfg: Config, s: System, step: Step)
    requires SafeOk(cfg, s) && AimOk(s) && !IsDelete(step)
    ensures AimOk(Next(cfg, s, step))
  {
    StepAims(cfg, s, step);
    var t := Next(cfg, s, step);
    FlightReads(cfg, s, step);
    hide SafeOk, Next, Aimed, OpenStays;
    forall n | n in t.flights ensures OpenStays(t.flights[n].read, t.c) {
      if n in s.flights && t.flights[n].read == s.flights[n].read {
        OpenStaysTrans(t.flights[n].read, s.c, t.c);
      }
    }
  }

  lemma ContinueReads(s: System, n: string, m: string)
    requires n in s.flights && m in ContinueFlight(s, n).flights
    ensures m in s.flights && ContinueFlight(s, n).flights[m].read == s.flights[m].read
  {
    hide ApplyEffect, EffectAt, EffectCount;
  }

  lemma FlightReads(cfg: Config, s: System, step: Step)
    ensures var t := Next(cfg, s, step);
            forall n | n in t.flights :: (n in s.flights && t.flights[n].read == s.flights[n].read) ||
              t.flights[n].read == s.c
  {
    hide PlanOf, HandleDelivery, BuildReceipt, ContinueFlight, EffectCount, TenantAfter, ScanJobNext, Receipted,
      ScanJobStepped, StampedBy, Lists, MayObserve;
    if step.Continue? && step.n in s.flights {
      forall m | m in ContinueFlight(s, step.n).flights
        ensures m in s.flights && ContinueFlight(s, step.n).flights[m].read == s.flights[m].read
      {
        ContinueReads(s, step.n, m);
      }
    }
  }

  lemma {:induction false} AimHolds(cfg: Config, steps: seq<Step>)
    requires DeleteFree(steps)
    ensures AimOk(Run(cfg, EMPTY_SYSTEM, steps))
  {
    if steps != [] {
      AimHolds(cfg, steps[..|steps| - 1]);
      SafeHolds(cfg, steps[..|steps| - 1]);
      hide SafeOk, AimOk, Next;
      StepKeepsAim(cfg, Run(cfg, EMPTY_SYSTEM, steps[..|steps| - 1]), steps[|steps| - 1]);
    }
  }

  // Of the scanners that run only ZAP is dynamic
  lemma OnlyZapIsDynamic(cfg: Config, s: Scanner)
    requires Runs(cfg, s)
    ensures TargetFieldOf(s) == TenantUrlTarget <==> s == Zap
  {
  }

  // Whatever scanner it is made for, a job has a target only if that scanner attacks a running service
  lemma DynamicScannersGetTheUrl(n: string, tenant: Tenant, s: Scanner)
    ensures NewScanJob(n, tenant, s) ==
            ScanJob(s, n, if s in {Zap, BurpEnterprise} && tenant.status.Some? then tenant.status.value.ingressUrl
                          else None, None)
  {
  }

  // Over every run without deletes: a scan job of a dynamic scanner is aimed at the URL its tenant is ready
  // under now, however long ago it was created; no other scan job is aimed at a tenant
  lemma DynamicScansAimAtTheirTenant(cfg: Config, steps: seq<Step>, k: string)
    requires DeleteFree(steps) && k in Run(cfg, EMPTY_SYSTEM, steps).c.scanJobs
    ensures var c := Run(cfg, EMPTY_SYSTEM, steps).c;
            var j := c.scanJobs[k];
            && "eph-" + j.parent in c.tenants
            && var t := c.tenants["eph-" + j.parent];
               && (t.Phase() == Ready || t.Phase() == TenantScanning)
               && j.targetTenantUrl == if j.scanner == Zap && t.status.Some? then t.status.value.ingressUrl else None
  {
    AimHolds(cfg, steps);
    ScanJobsAreSound(cfg, steps, k);
    hide Run, RequiredScanners, Runs, TargetFieldOf;
    var j := Run(cfg, EMPTY_SYSTEM, steps).c.scanJobs[k];
    RequiredIffRuns(cfg, j.scanner);
    OnlyZapIsDynamic(cfg, j.scanner);
    assert TenantName(j.parent) == "eph-" + j.parent;
  }
}
