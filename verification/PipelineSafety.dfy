/** What every run without external deletes keeps: the children a phase promises, and that the findings
    hashed, counted and judged are the same ones. */
module PipelineSafety {
  import opened Wrappers
  import opened Crds
  import opened Encodings
  import opened Evidence
  import opened Security
  import opened Pipeline
  import opened PipelineHistory
  import opened ChildFindings

  // ---- What stays as it is while anything else happens ----

  // A scan job keeps its scanner and parent; once attested it never changes again
  predicate JobEvolves(a: ScanJob, b: ScanJob) {
    b.scanner == a.scanner && b.parent == a.parent && (a.Phase() == Some(Attested) ==> b == a)
  }

  ghost predicate Evolves(a: Cluster, b: Cluster) {
    && (forall k | k in a.tenants :: k in b.tenants)
    && (forall k | k in a.scanJobs :: k in b.scanJobs && JobEvolves(a.scanJobs[k], b.scanJobs[k]))
  }

  lemma EvolvesTrans(a: Cluster, b: Cluster, c: Cluster)
    requires Evolves(a, b) && Evolves(b, c)
    ensures Evolves(a, c)
  {
    forall k | k in a.scanJobs ensures k in c.scanJobs && JobEvolves(a.scanJobs[k], c.scanJobs[k]) {
      assert k in b.scanJobs;
    }
  }

  // ---- What a phase promises ----

  // Summaries of attested children, with the counts of their findings
  ghost predicate SummariesFit(cfg: Config, jobs: map<string, ScanJob>, n: string, ss: seq<Summary>) {
    && (forall s | s in ss :: s.name in Names(cfg, n) && s.name in jobs && s == SummaryOf(s.name, jobs[s.name]))
    && SumCounts(ss) == |FindingsOf(cfg, jobs, n)|
  }

  ghost predicate ValidationOk(cfg: Config, c: Cluster, n: string, v: Validation) {
    var rank, st := v.Phase().Rank(), v.Status();
    && (rank >= 1 ==> TenantName(n) in c.tenants)
    && (rank >= 2 ==> AllThere(cfg, c.scanJobs, n))
    && (rank >= 3 ==> AllAttested(cfg, c.scanJobs, n) && SummariesFit(cfg, c.scanJobs, n, st.scanJobs))
    && (rank >= 4 ==> st.evidenceHash == Some(cfg.blake3(Canonical(FindingsOf(cfg, c.scanJobs, n)))))
    && (rank == 6 ==> st.gateDecision.Some? && GateFits(cfg, FindingsOf(cfg, c.scanJobs, n), st.gateDecision.value))
  }

  lemma AttestedFindingsStay(cfg: Config, a: Cluster, b: Cluster, n: string)
    requires Evolves(a, b) && AllAttested(cfg, a.scanJobs, n)
    ensures AllAttested(cfg, b.scanJobs, n)
    ensures FindingsOf(cfg, b.scanJobs, n) == FindingsOf(cfg, a.scanJobs, n)
    ensures forall k | k in Names(cfg, n) :: b.scanJobs[k] == a.scanJobs[k]
  {
    hide Names;
    ConcatAgrees(Blocks(a.scanJobs, n), Blocks(b.scanJobs, n), Names(cfg, n));
  }

  lemma PromiseStays(cfg: Config, a: Cluster, b: Cluster, n: string, v: Validation)
    requires Evolves(a, b) && ValidationOk(cfg, a, n, v)
    ensures ValidationOk(cfg, b, n, v)
  {
    hide Names, FindingsOf, GateFits, Canonical, SumCounts;
    if v.Phase().Rank() >= 3 {
      AttestedFindingsStay(cfg, a, b, n);
    }
  }

  // ---- A reconcile in progress ----

  predicate Created(c: Cluster, e: Effect) {
    match e
    case EnsureTenant(name, _) => name in c.tenants
    case EnsureScanJob(name, _) => name in c.scanJobs
    case _ => true
  }

  ghost predicate FlightSafe(cfg: Config, c: Cluster, n: string, f: Flight) {
    && n in f.read.validations && f.read.validations[n] == f.v && Lists(f.read, n, f.listing)
    && f.plan == PlanOf(cfg, f.read, n, f.listing, f.now)
    && JobsOk(cfg, f.read) && ValidationOk(cfg, f.read, n, f.v)
    && Evolves(f.read, c)
    && forall i | 0 <= i < |f.plan.creates| && i < f.done :: Created(c, f.plan.creates[i])
  }

  lemma CreatedStays(a: Cluster, b: Cluster, e: Effect)
    requires Evolves(a, b) && Created(a, e)
    ensures Created(b, e)
  {
  }

  lemma FlightStays(cfg: Config, a: Cluster, b: Cluster, n: string, f: Flight)
    requires Evolves(a, b) && FlightSafe(cfg, a, n, f)
    ensures FlightSafe(cfg, b, n, f)
  {
    hide PlanOf, ValidationOk, Lists, Created, JobsOk;
    EvolvesTrans(f.read, a, b);
    forall i | 0 <= i < |f.plan.creates| && i < f.done ensures Created(b, f.plan.creates[i]) {
      CreatedStays(a, b, f.plan.creates[i]);
    }
  }

  ghost predicate SafeOk(cfg: Config, s: System) {
    && HistoryOk(s)
    && JobsOk(cfg, s.c)
    && (forall n | n in s.c.validations :: ValidationOk(cfg, s.c, n, s.c.validations[n]))
    && (forall n | n in s.flights :: FlightSafe(cfg, s.c, n, s.flights[n]))
  }

  lemma SafeHasHistory(cfg: Config, s: System)
    requires SafeOk(cfg, s)
    ensures HistoryOk(s)
  {
    hide HistoryOk;
  }

  // ---- The status a reconcile writes keeps the promise of its new phase ----

  lemma PendingKeeps(cfg: Config, c: Cluster, n: string, f: Flight)
    requires FlightSafe(cfg, c, n, f) && f.v.Phase().Pending? && f.done >= |f.plan.creates|
    ensures f.plan.next.Some? && ValidationOk(cfg, c, n, f.v.(status := f.plan.next))
  {
    assert Created(c, f.plan.creates[0]);
  }

  lemma CreatesNameEveryChild(cfg: Config, n: string, tenant: Tenant)
    ensures var creates := CreateScanJobs(n, tenant, RequiredScanners(cfg));
            |creates| == |Names(cfg, n)|
            && forall i | 0 <= i < |creates| :: creates[i].EnsureScanJob? && creates[i].jobName == Names(cfg, n)[i]
  {
    hide RequiredScanners, ScanJobName;
  }

  lemma ProvisioningKeeps(cfg: Config, c: Cluster, n: string, f: Flight)
    requires FlightSafe(cfg, c, n, f) && Shape(n, f.v) && f.v.Phase().Provisioning? && f.done >= |f.plan.creates|
    ensures f.plan.next.Some? ==> ValidationOk(cfg, c, n, f.v.(status := f.plan.next))
  {
    hide CreateScanJobs, Names, JobsOk, Lists;
    var tenant := f.read.tenants[TenantName(n)];
    CreatesNameEveryChild(cfg, n, tenant);
    if f.plan.next.Some? {
      assert f.plan.creates == CreateScanJobs(n, tenant, RequiredScanners(cfg));
      forall k | k in Names(cfg, n) ensures k in c.scanJobs {
        var i :| 0 <= i < |Names(cfg, n)| && Names(cfg, n)[i] == k;
        assert Created(c, f.plan.creates[i]);
      }
    }
  }

  lemma AllTerminalMeansAttested(cfg: Config, c: Cluster, n: string, listing: seq<string>)
    requires JobsOk(cfg, c) && AllThere(cfg, c.scanJobs, n) && Lists(c, n, listing)
    requires forall k | k in listing :: TerminalJob(c.scanJobs[k])
    ensures AllAttested(cfg, c.scanJobs, n)
  {
    hide Names;
    ListingIsTheNames(cfg, c, n, listing);
    forall k | k in Names(cfg, n) ensures k in c.scanJobs && c.scanJobs[k].Phase() == Some(Attested) {
      assert JobOk(cfg, k, c.scanJobs[k]);
    }
  }

  lemma SummariesOfChildrenFit(cfg: Config, c: Cluster, n: string, listing: seq<string>)
    requires JobsOk(cfg, c) && AllThere(cfg, c.scanJobs, n) && Lists(c, n, listing)
    ensures SummariesFit(cfg, c.scanJobs, n, Summaries(c, listing))
  {
    hide Names, FindingsOf, SumCounts, JobsOk, Canonical;
    ListingIsTheNames(cfg, c, n, listing);
    ListingIsIrrelevant(cfg, c, n, listing);
    SummariesCountTheFindings(cfg, c, listing);
  }

  lemma ScanningKeeps(cfg: Config, c: Cluster, n: string, v: Validation, listing: seq<string>, now: Time)
    requires JobsOk(cfg, c) && ValidationOk(cfg, c, n, v) && Lists(c, n, listing) && v.Phase().Scanning?
    ensures var p := PlanScanning(cfg, c, n, v, listing, now);
            listing != [] && p.next.Some? && ValidationOk(cfg, c, n, v.(status := p.next))
  {
    hide PlanProvisioning, Names, JobsOk, FindingsOf, Summaries, SummariesFit, GateFits, Canonical;
    NamesAreDistinct(cfg, n);
    ListingIsTheNames(cfg, c, n, listing);
    assert listing != [] by { assert Names(cfg, n)[0] in Names(cfg, n); }
    SummariesOfChildrenFit(cfg, c, n, listing);
    if forall k | k in listing :: TerminalJob(c.scanJobs[k]) {
      AllTerminalMeansAttested(cfg, c, n, listing);
    }
  }

  lemma AggregatingKeeps(cfg: Config, c: Cluster, n: string, v: Validation, listing: seq<string>)
    requires JobsOk(cfg, c) && ValidationOk(cfg, c, n, v) && Lists(c, n, listing) && v.Phase().Aggregating?
    ensures var p := PlanAggregating(cfg, c, v, listing);
            p.next.Some? && ValidationOk(cfg, c, n, v.(status := p.next))
  {
    hide Names, JobsOk, FindingsOf, SummariesFit, GateFits, Canonical;
    ListingIsIrrelevant(cfg, c, n, listing);
  }

  lemma GatingKeeps(cfg: Config, c: Cluster, n: string, v: Validation, listing: seq<string>, now: Time)
    requires JobsOk(cfg, c) && ValidationOk(cfg, c, n, v) && Lists(c, n, listing) && v.Phase().Gating?
    ensures var p := PlanGating(cfg, c, v, listing, now);
            p.next.Some? && ValidationOk(cfg, c, n, v.(status := p.next))
  {
    hide Names, JobsOk, FindingsOf, SummariesFit, GateFits, Canonical, GateOf, Children, AllFindings;
    ListingIsIrrelevant(cfg, c, n, listing);
    AllScannersReported(cfg, c, n, listing);
    GateFitsTheChildren(cfg, v, Children(c, listing), now, FindingsOf(cfg, c.scanJobs, n));
  }

  lemma AttestingKeeps(cfg: Config, c: Cluster, n: string, v: Validation)
    requires ValidationOk(cfg, c, n, v) && v.Phase().Attesting?
    ensures ValidationOk(cfg, c, n, v.(status := PlanAttesting(v).next))
  {
    hide SummariesFit, GateFits, Canonical, FindingsOf;
  }

  lemma PatchKeepsPromise(cfg: Config, c: Cluster, n: string, f: Flight)
    requires FlightSafe(cfg, c, n, f) && Shape(n, f.v) && f.done >= |f.plan.creates| && f.plan.next.Some?
    ensures ValidationOk(cfg, c, n, f.v.(status := f.plan.next))
  {
    hide ValidationOk, JobsOk, Lists, Created, PlanPending, PlanProvisioning, PlanScanning, PlanAggregating,
      PlanAttesting, PlanGating, Shape;
    var w := f.v.(status := f.plan.next);
    match f.v.Phase()
    case Pending => PendingKeeps(cfg, c, n, f);
    case Provisioning => ProvisioningKeeps(cfg, c, n, f);
    case Scanning => ScanningKeeps(cfg, f.read, n, f.v, f.listing, f.now); PromiseStays(cfg, f.read, c, n, w);
    case Aggregating => AggregatingKeeps(cfg, f.read, n, f.v, f.listing); PromiseStays(cfg, f.read, c, n, w);
    case Attesting => AttestingKeeps(cfg, f.read, n, f.v); PromiseStays(cfg, f.read, c, n, w);
    case Gating => GatingKeeps(cfg, f.read, n, f.v, f.listing, f.now); PromiseStays(cfg, f.read, c, n, w);
    case _ =>
  }

  // ---- Steps ----

  // A step that leaves every validation's status alone, or gives it one that keeps its promise
  lemma FramedStep(cfg: Config, s: System, t: System)
    requires SafeOk(cfg, s) && HistoryOk(t) && JobsOk(cfg, t.c) && Evolves(s.c, t.c)
    requires forall n | n in t.c.validations ::
               (n in s.c.validations && t.c.validations[n] == s.c.validations[n]) ||
                 ValidationOk(cfg, t.c, n, t.c.validations[n])
    requires forall n | n in t.flights ::
               (n in s.flights && t.flights[n] == s.flights[n]) || FlightSafe(cfg, t.c, n, t.flights[n])
    ensures SafeOk(cfg, t)
  {
    hide HistoryOk, JobsOk, Evolves, ValidationOk, FlightSafe;
    forall n | n in t.c.validations ensures ValidationOk(cfg, t.c, n, t.c.validations[n]) {
      if n in s.c.validations && t.c.validations[n] == s.c.validations[n] {
        PromiseStays(cfg, s.c, t.c, n, t.c.validations[n]);
      }
    }
    forall n | n in t.flights ensures FlightSafe(cfg, t.c, n, t.flights[n]) {
      if n in s.flights && t.flights[n] == s.flights[n] {
        FlightStays(cfg, s.c, t.c, n, t.flights[n]);
      }
    }
  }

  lemma BeginKeeps(cfg: Config, s: System, n: string, listing: seq<string>, now: Time)
    requires SafeOk(cfg, s) && HistoryOk(Next(cfg, s, Begin(n, listing, now)))
    ensures SafeOk(cfg, Next(cfg, s, Begin(n, listing, now)))
  {
    hide HistoryOk, JobsOk, ValidationOk, PlanOf, Lists;
    FramedStep(cfg, s, Next(cfg, s, Begin(n, listing, now)));
  }

  // The children a plan creates are required ones, named as they should be
  lemma CreatedJobsAreOk(cfg: Config, c: Cluster, n: string, listing: seq<string>, now: Time, i: nat)
    requires n in c.validations && Lists(c, n, listing)
    requires i < |PlanOf(cfg, c, n, listing, now).creates|
    ensures var e := PlanOf(cfg, c, n, listing, now).creates[i];
            e.EnsureTenant? || (e.EnsureScanJob? && JobOk(cfg, e.jobName, e.job) && e.job.parent == n &&
              e.job.status.None?)
  {
    hide RequiredScanners, ScanJobName, GateOf, Summaries;
    var creates := PlanOf(cfg, c, n, listing, now).creates;
    if creates[i].EnsureScanJob? {
      assert forall j | 0 <= j < |RequiredScanners(cfg)| :: RequiredScanners(cfg)[j] in RequiredScanners(cfg);
    }
  }

  lemma CreatedEvolves(cfg: Config, c: Cluster, n: string, e: Effect)
    requires JobsOk(cfg, c) && n in c.validations
    requires e.EnsureTenant? || (e.EnsureScanJob? && JobOk(cfg, e.jobName, e.job) && e.job.parent == n)
    ensures var d := ApplyEffect(c, n, e);
            JobsOk(cfg, d) && Evolves(c, d) && Created(d, e) && d.validations == c.validations
  {
    hide JobOk;
  }

  lemma CreateKeeps(cfg: Config, s: System, n: string)
    requires SafeOk(cfg, s) && n in s.flights && HistoryOk(ContinueFlight(s, n))
    requires s.flights[n].done < |s.flights[n].plan.creates|
    ensures SafeOk(cfg, ContinueFlight(s, n))
  {
    hide ValidationOk, PlanOf, Lists, JobOk, ValidationsOk, EventsOk, DispatchOk, EventsKnown, PlanSound, Created,
      JobsOk, Evolves;
    var f, t := s.flights[n], ContinueFlight(s, n);
    assert FlightSafe(cfg, s.c, n, f) && FlightOk(s.c, n, f);
    CreatedJobsAreOk(cfg, f.read, n, f.listing, f.now, f.done);
    var e := f.plan.creates[f.done];
    assert t.c == ApplyEffect(s.c, n, e);
    CreatedEvolves(cfg, s.c, n, e);
    FlightStays(cfg, s.c, t.c, n, f);
    hide HistoryOk, ApplyEffect, EffectAt;
    FramedStep(cfg, s, t);
  }

  lemma PatchedSystem(cfg: Config, s: System, n: string)
    requires SafeOk(cfg, s) && n in s.flights
    requires s.flights[n].plan.next.Some? && s.flights[n].done == |s.flights[n].plan.creates|
    ensures var f := s.flights[n];
            && JobsOk(cfg, s.c) && FlightSafe(cfg, s.c, n, f) && Shape(n, f.v) && n in s.c.validations
            && ContinueFlight(s, n) ==
                 s.(c := s.c.(validations := s.c.validations[n := f.v.(status := f.plan.next)]),
                    flights := s.flights[n := f.(done := f.done + 1)])
  {
    hide ValidationOk, FlightSafe, JobOk, Shape, ValidationsOk, EventsOk, DispatchOk, EventsKnown, Emitted, Grows, Edge;
    assert FlightSafe(cfg, s.c, n, s.flights[n]) && FlightOk(s.c, n, s.flights[n]);
  }

  lemma SameChildren(cfg: Config, a: Cluster, b: Cluster)
    requires JobsOk(cfg, a) && b.scanJobs == a.scanJobs && b.tenants == a.tenants
    requires forall n | n in a.validations :: n in b.validations
    ensures JobsOk(cfg, b) && Evolves(a, b)
  {
    hide JobOk;
  }

  lemma PatchKeeps(cfg: Config, s: System, n: string)
    requires SafeOk(cfg, s) && n in s.flights && HistoryOk(ContinueFlight(s, n))
    requires s.flights[n].plan.next.Some? && s.flights[n].done == |s.flights[n].plan.creates|
    ensures SafeOk(cfg, ContinueFlight(s, n))
  {
    hide SafeOk, HistoryOk, ValidationOk, Lists, JobsOk, Shape, Evolves, ContinueFlight;
    var f, t := s.flights[n], ContinueFlight(s, n);
    PatchedSystem(cfg, s, n);
    PatchKeepsPromise(cfg, s.c, n, f);
    assert Evolves(s.c, t.c) && JobsOk(cfg, t.c) by { SameChildren(cfg, s.c, t.c); }
    PromiseStays(cfg, s.c, t.c, n, t.c.validations[n]);
    FlightStays(cfg, s.c, t.c, n, f);
    FramedStep(cfg, s, t);
  }

  lemma QuietContinueKeeps(cfg: Config, s: System, n: string)
    requires SafeOk(cfg, s) && n in s.flights && HistoryOk(ContinueFlight(s, n))
    requires s.flights[n].Patched() || s.flights[n].Over()
    ensures SafeOk(cfg, ContinueFlight(s, n))
  {
    hide ValidationOk, PlanOf, Lists, JobOk, HistoryOk, Emitted, Created;
    var f, t := s.flights[n], ContinueFlight(s, n);
    assert FlightSafe(cfg, s.c, n, f);
    if !f.Over() {
      assert t.c == s.c.(events := t.c.events);
    }
    FlightStays(cfg, s.c, t.c, n, f);
    FramedStep(cfg, s, t);
  }

  lemma ContinueKeeps(cfg: Config, s: System, n: string)
    requires SafeOk(cfg, s) && HistoryOk(Next(cfg, s, Continue(n)))
    ensures SafeOk(cfg, Next(cfg, s, Continue(n)))
  {
    hide SafeOk, HistoryOk;
    if n in s.flights {
      var f := s.flights[n];
      if f.Over() || f.Patched() {
        QuietContinueKeeps(cfg, s, n);
      } else if f.done < |f.plan.creates| {
        CreateKeeps(cfg, s, n);
      } else {
        PatchKeeps(cfg, s, n);
      }
    }
  }

  lemma ScanJobStaysOk(cfg: Config, k: string, j: ScanJob, finished: bool, report: seq<Finding>)
    requires JobOk(cfg, k, j) && StampedBy(j.scanner, report)
    ensures JobOk(cfg, k, ScanJobNext(cfg, j, finished, report)) && JobEvolves(j, ScanJobNext(cfg, j, finished, report))
  {
    hide RequiredScanners, ScanJobName;
  }

  lemma ScanJobStepKeeps(cfg: Config, s: System, name: string, report: seq<Finding>, crashed: bool)
    requires SafeOk(cfg, s) && HistoryOk(Next(cfg, s, ReconcileScanJob(name, report, crashed)))
    ensures SafeOk(cfg, Next(cfg, s, ReconcileScanJob(name, report, crashed)))
  {
    hide HistoryOk, ValidationOk, FlightSafe, JobOk, ScanJobNext;
    var t := Next(cfg, s, ReconcileScanJob(name, report, crashed));
    if name in s.c.scanJobs && StampedBy(s.c.scanJobs[name].scanner, report) {
      ScanJobStaysOk(cfg, name, s.c.scanJobs[name], name in s.c.jobs && s.c.jobs[name], report);
    }
    assert JobsOk(cfg, t.c) && Evolves(s.c, t.c);
    hide Next;
    FramedStep(cfg, s, t);
  }

  lemma ReceiptKeepsPromise(cfg: Config, c: Cluster, n: string, v: Validation, r: Receipt)
    requires ValidationOk(cfg, c, n, v) && v.Phase().Terminal()
    ensures ValidationOk(cfg, c, n, v.(status := Some(v.Status().(receipt := Some(r)))))
  {
    hide SummariesFit, GateFits, FindingsOf, Canonical;
  }

  lemma ReceiptKeeps(cfg: Config, s: System, n: string, observed: Validation, now: Time)
    requires SafeOk(cfg, s) && HistoryOk(Next(cfg, s, AppendReceipt(n, observed, now)))
    ensures SafeOk(cfg, Next(cfg, s, AppendReceipt(n, observed, now)))
  {
    hide HistoryOk, ValidationOk, FlightSafe, JobOk, BuildReceipt;
    var t := Next(cfg, s, AppendReceipt(n, observed, now));
    if t != s {
      var v := s.c.validations[n];
      ReceiptKeepsPromise(cfg, s.c, n, v, BuildReceipt(cfg, observed, now));
      PromiseStays(cfg, s.c, t.c, n, t.c.validations[n]);
    }
    FramedStep(cfg, s, t);
  }

  lemma NewcomerKeeps(cfg: Config, s: System, step: Step)
    requires SafeOk(cfg, s) && step.CreateValidation? && HistoryOk(Next(cfg, s, step))
    ensures SafeOk(cfg, Next(cfg, s, step))
  {
    hide HistoryOk, FlightSafe, JobOk, FindingsOf, GateFits, SummariesFit;
    FramedStep(cfg, s, Next(cfg, s, step));
  }

  // Tenant steps, job bookkeeping and the dispatcher touch nothing a phase promises
  lemma OtherKeeps(cfg: Config, s: System, step: Step)
    requires SafeOk(cfg, s) && HistoryOk(Next(cfg, s, step))
    requires step.Crash? || step.ReconcileTenant? || step.Deliver? || step.RestartDispatcher? || step.FinishJob? ||
      step.ExpireJob?
    ensures SafeOk(cfg, Next(cfg, s, step))
  {
    hide HistoryOk, ValidationOk, FlightSafe, JobOk, TenantAfter, HandleDelivery;
    FramedStep(cfg, s, Next(cfg, s, step));
  }

  lemma DropKeeps(cfg: Config, s: System, n: string)
    requires SafeOk(cfg, s) && HistoryOk(Next(cfg, s, DropEvent(n)))
    ensures SafeOk(cfg, Next(cfg, s, DropEvent(n)))
  {
    hide ValidationOk, PlanOf, Lists, JobOk, HistoryOk, Emitted, Created;
    var t := Next(cfg, s, DropEvent(n));
    if t != s {
      assert FlightSafe(cfg, s.c, n, s.flights[n]);
      FlightStays(cfg, s.c, t.c, n, s.flights[n]);
    }
    FramedStep(cfg, s, t);
  }

  lemma StepKeepsSafe(cfg: Config, s: System, step: Step)
    requires SafeOk(cfg, s) && !IsDelete(step)
    ensures SafeOk(cfg, Next(cfg, s, step))
  {
    StepKeepsHistory(cfg, s, step);
    hide SafeOk, HistoryOk, Next;
    match step
    case Begin(n, listing, now) => BeginKeeps(cfg, s, n, listing, now);
    case Continue(n) => ContinueKeeps(cfg, s, n);
    case DropEvent(n) => DropKeeps(cfg, s, n);
    case ReconcileScanJob(name, report, crashed) => ScanJobStepKeeps(cfg, s, name, report, crashed);
    case AppendReceipt(n, observed, now) => ReceiptKeeps(cfg, s, n, observed, now);
    case CreateValidation(_, _, _, _, _) => NewcomerKeeps(cfg, s, step);
    case _ => OtherKeeps(cfg, s, step);
  }

  // ---- Theorems about every run without external deletes ----

  predicate DeleteFree(steps: seq<Step>) {
    forall i | 0 <= i < |steps| :: !IsDelete(steps[i])
  }

  lemma {:induction false} RunKeepsSafe(cfg: Config, s: System, steps: seq<Step>)
    requires SafeOk(cfg, s) && DeleteFree(steps)
    ensures SafeOk(cfg, Run(cfg, s, steps))
  {
    hide SafeOk, Next;
    if steps != [] {
      RunKeepsSafe(cfg, s, steps[..|steps| - 1]);
      StepKeepsSafe(cfg, Run(cfg, s, steps[..|steps| - 1]), steps[|steps| - 1]);
    }
  }

  lemma SafeHolds(cfg: Config, steps: seq<Step>)
    requires DeleteFree(steps)
    ensures SafeOk(cfg, Run(cfg, EMPTY_SYSTEM, steps))
  {
    HistoryHolds(cfg, []);
    RunKeepsSafe(cfg, EMPTY_SYSTEM, steps);
  }

  lemma PromisesHold(cfg: Config, steps: seq<Step>, n: string)
    requires DeleteFree(steps) && n in Run(cfg, EMPTY_SYSTEM, steps).c.validations
    ensures var c := Run(cfg, EMPTY_SYSTEM, steps).c;
            JobsOk(cfg, c) && ValidationOk(cfg, c, n, c.validations[n]) && Shape(n, c.validations[n])
  {
    SafeHolds(cfg, steps);
    hide Run, FlightSafe, FlightOk, EventsOk, EventsKnown, JobsOk, ValidationOk, DispatchOk, Shape;
  }

  // A scan job is one of a required scanner and bears its name. It has reported nothing until it is attested,
  // and then what it reported is its own scanner's and hashes to its attestation.
  lemma ScanJobsAreSound(cfg: Config, steps: seq<Step>, k: string)
    requires DeleteFree(steps) && k in Run(cfg, EMPTY_SYSTEM, steps).c.scanJobs
    ensures var c := Run(cfg, EMPTY_SYSTEM, steps).c;
            JobOk(cfg, k, c.scanJobs[k]) && c.scanJobs[k].parent in c.validations
  {
    SafeHolds(cfg, steps);
    hide Run, HistoryOk, FlightSafe, ValidationOk, JobOk;
  }

  function JobsFor(c: Cluster, n: string, s: Scanner): set<string> {
    set k | k in c.scanJobs && c.scanJobs[k].parent == n && c.scanJobs[k].scanner == s
  }

  lemma JobsForAreNamed(cfg: Config, c: Cluster, n: string, s: Scanner)
    requires JobsOk(cfg, c)
    ensures JobsFor(c, n, s) == if ScanJobName(s, n) in c.scanJobs then {ScanJobName(s, n)} else {}
    ensures ScanJobName(s, n) in c.scanJobs ==> s in SpecFor(cfg).requiredScanners
  {
    hide ScanJobName, SpecFor, RequiredScanners;
    RequiredScannersFacts(cfg);
    var name := ScanJobName(s, n);
    if name in c.scanJobs {
      JobScanner(cfg, name, c.scanJobs[name], s, n);
    }
  }

  // From Scanning on there is exactly one scan job for each required scanner and none for any other;
  // before that there is at most one. From Aggregating on all of them are attested.
  lemma OneJobPerRequiredScanner(cfg: Config, steps: seq<Step>, n: string, s: Scanner)
    requires DeleteFree(steps) && n in Run(cfg, EMPTY_SYSTEM, steps).c.validations
    ensures var c := Run(cfg, EMPTY_SYSTEM, steps).c;
            var rank := c.validations[n].Phase().Rank();
            && |JobsFor(c, n, s)| <= 1
            && (s !in SpecFor(cfg).requiredScanners ==> JobsFor(c, n, s) == {})
            && (rank >= 2 && s in SpecFor(cfg).requiredScanners ==> |JobsFor(c, n, s)| == 1)
            && (rank >= 3 ==> forall k | k in JobsFor(c, n, s) :: c.scanJobs[k].Phase() == Some(Attested))
  {
    hide Names, ScanJobName, SpecFor, RequiredScanners, SummariesFit, GateFits, FindingsOf, Run, Canonical, JobsOk;
    PromisesHold(cfg, steps, n);
    var c := Run(cfg, EMPTY_SYSTEM, steps).c;
    NamesAreDistinct(cfg, n);
    RequiredScannersFacts(cfg);
    JobsForAreNamed(cfg, c, n, s);
  }

  // The same by the deployment flags: eight scanners always run, Semgrep and KubeLinter where the source is at
  // hand, Zap where there is a live target, and no other ever
  lemma ScannersRunByFlags(cfg: Config, steps: seq<Step>, n: string, s: Scanner)
    requires DeleteFree(steps) && n in Run(cfg, EMPTY_SYSTEM, steps).c.validations
    ensures var c := Run(cfg, EMPTY_SYSTEM, steps).c;
            && (c.validations[n].Phase().Rank() >= 2 && Runs(cfg, s) ==> |JobsFor(c, n, s)| == 1)
            && (!Runs(cfg, s) ==> JobsFor(c, n, s) == {})
  {
    hide Run, JobsFor, SpecFor;
    OneJobPerRequiredScanner(cfg, steps, n, s);
    RequiredAreThoseThatRun(cfg, s);
  }

  lemma FitIsTheChildrens(cfg: Config, findings: seq<Finding>, fs: seq<Finding>, g: GateDecision)
    requires GateFits(cfg, fs, g) && forall f :: f in findings <==> f in fs
    ensures GateFits(cfg, findings, g) && (LiveCritical(findings) <==> LiveCritical(fs))
  {
    hide Breaches;
    assert LiveCritical(findings) <==> LiveCritical(fs);
    assert AgedHigh(cfg, findings, g.decidedAt) <==> AgedHigh(cfg, fs, g.decidedAt);
  }

  // What the children report now, listed in any order, is what was counted, hashed and judged
  lemma HashedCountedAndJudgedAlike(cfg: Config, steps: seq<Step>, n: string, listing: seq<string>)
    requires var c := Run(cfg, EMPTY_SYSTEM, steps).c; DeleteFree(steps) && n in c.validations && Lists(c, n, listing)
    ensures var c := Run(cfg, EMPTY_SYSTEM, steps).c;
            var v := c.validations[n];
            var st, findings := v.Status(), AllFindings(Children(c, listing));
            && (v.Phase().Rank() >= 3 ==> SumCounts(st.scanJobs) == |findings|)
            && (v.Phase().Rank() >= 4 ==> st.evidenceHash == Some(cfg.blake3(Canonical(findings))))
            && (v.Phase().Terminal() ==>
                  && st.gateDecision.Some? && GateFits(cfg, findings, st.gateDecision.value)
                  && v.Phase() == (if LiveCritical(findings) then Phase.Failed else Passed))
  {
    PromisesHold(cfg, steps, n);
    var c := Run(cfg, EMPTY_SYSTEM, steps).c;
    AgreesWithTheChildren(cfg, c, n, listing);
  }

  lemma AgreesWithTheChildren(cfg: Config, c: Cluster, n: string, listing: seq<string>)
    requires n in c.validations && JobsOk(cfg, c) && ValidationOk(cfg, c, n, c.validations[n]) &&
      Shape(n, c.validations[n])
    requires Lists(c, n, listing)
    ensures var v := c.validations[n];
            var st, findings := v.Status(), AllFindings(Children(c, listing));
            && (v.Phase().Rank() >= 3 ==> SumCounts(st.scanJobs) == |findings|)
            && (v.Phase().Rank() >= 4 ==> st.evidenceHash == Some(cfg.blake3(Canonical(findings))))
            && (v.Phase().Terminal() ==>
                  && st.gateDecision.Some? && GateFits(cfg, findings, st.gateDecision.value)
                  && v.Phase() == (if LiveCritical(findings) then Phase.Failed else Passed))
  {
    hide FindingsOf, Canonical, AllFindings, Children, JobsOk, Names, GateSeverity, LiveCritical, SumCounts;
    var v := c.validations[n];
    if v.Phase().Rank() >= 3 {
      ListingIsIrrelevant(cfg, c, n, listing);
      if v.Phase().Terminal() {
        FitIsTheChildrens(cfg, AllFindings(Children(c, listing)), FindingsOf(cfg, c.scanJobs, n),
          v.Status().gateDecision.value);
      }
    }
  }

  // Once a validation is aggregating, nothing that happens later changes what its children found
  lemma FindingsAreFrozen(cfg: Config, s: System, steps: seq<Step>, n: string)
    requires SafeOk(cfg, s) && DeleteFree(steps) && n in s.c.validations && s.c.validations[n].Phase().Rank() >= 3
    ensures var t := Run(cfg, s, steps); FindingsOf(cfg, t.c.scanJobs, n) == FindingsOf(cfg, s.c.scanJobs, n)
  {
    RunEvolves(cfg, s, steps);
    hide HistoryOk, FindingsOf, Run, Evolves, Canonical, GateFits, SummariesFit, FlightSafe, JobsOk, AllAttested;
    assert ValidationOk(cfg, s.c, n, s.c.validations[n]);
    AttestedFindingsStay(cfg, s.c, Run(cfg, s, steps).c, n);
  }

  lemma EvolvesRefl(a: Cluster)
    ensures Evolves(a, a)
  {
  }

  lemma EffectEvolves(c: Cluster, n: string, e: Effect)
    ensures Evolves(c, ApplyEffect(c, n, e))
  {
  }

  lemma ScanJobEvolves(cfg: Config, c: Cluster, name: string, report: seq<Finding>, crashed: bool)
    requires name in c.scanJobs
    ensures Evolves(c, ScanJobStepped(cfg, c, name, report, crashed))
  {
  }

  lemma StepEvolves(cfg: Config, s: System, step: Step)
    requires SafeOk(cfg, s) && !IsDelete(step)
    ensures Evolves(s.c, Next(cfg, s, step).c)
  {
    hide SafeOk, PlanOf, TenantAfter, HandleDelivery, MayObserve, Emitted, EffectAt, EffectCount, ApplyEffect,
      ScanJobStepped, BuildReceipt, StampedBy, Lists, JobEvolves;
    EvolvesRefl(s.c);
    assert forall j :: JobEvolves(j, j) by { JobsEvolveRefl(); }
    if step.Continue? && step.n in s.flights && !s.flights[step.n].Over() {
      var f := s.flights[step.n];
      EffectEvolves(s.c, step.n, EffectAt(f.plan, f.v, f.done));
    } else if step.ReconcileScanJob? && step.jobName in s.c.scanJobs {
      ScanJobEvolves(cfg, s.c, step.jobName, step.report, step.crashed);
    }
  }

  lemma JobsEvolveRefl()
    ensures forall j :: JobEvolves(j, j)
  {
  }

  lemma {:induction false} RunEvolves(cfg: Config, s: System, steps: seq<Step>)
    requires SafeOk(cfg, s) && DeleteFree(steps)
    ensures Evolves(s.c, Run(cfg, s, steps).c)
  {
    hide SafeOk, Next, Evolves;
    EvolvesRefl(s.c);
    if steps != [] {
      var before := Run(cfg, s, steps[..|steps| - 1]);
      RunKeepsSafe(cfg, s, steps[..|steps| - 1]);
      RunEvolves(cfg, s, steps[..|steps| - 1]);
      StepEvolves(cfg, before, steps[|steps| - 1]);
      EvolvesTrans(s.c, before.c, Next(cfg, before, steps[|steps| - 1]).c);
    }
  }

  lemma DispatchMeansRemediation(cfg: Config, steps: seq<Step>, i: nat)
    requires DeleteFree(steps) && i < |Run(cfg, EMPTY_SYSTEM, steps).dispatches|
    ensures !cfg.scanOnly
  {
    HistoryHolds(cfg, steps);
    hide Run, FlightOk, EventsOk, EventsKnown, JobsOk, FindingsOf, Canonical, SummariesFit, LiveCritical, AllThere,
      AllAttested;
    var s := Run(cfg, EMPTY_SYSTEM, steps);
    var n :| DecidedBy(s.c, s.dispatches[i], n);
    PromisesHold(cfg, steps, n);
  }

  // A scan-only deployment never executes an action
  lemma ScanOnlyNeverActs(cfg: Config, steps: seq<Step>)
    requires DeleteFree(steps) && cfg.scanOnly
    ensures Run(cfg, EMPTY_SYSTEM, steps).dispatches == []
  {
    hide Run;
    if Run(cfg, EMPTY_SYSTEM, steps).dispatches != [] {
      DispatchMeansRemediation(cfg, steps, 0);
    }
  }

  // With remediation on, an attestation is always missing at the gate: no decision is ever cosmetic
  lemma RemediationNeverSeesACosmeticDrift(cfg: Config, steps: seq<Step>, n: string)
    requires DeleteFree(steps) && !cfg.scanOnly && n in Run(cfg, EMPTY_SYSTEM, steps).c.validations
    ensures var gate := Run(cfg, EMPTY_SYSTEM, steps).c.validations[n].Status().gateDecision;
            gate.Some? ==> gate.value.severity == (if gate.value.verdict == VerdictFailed then Critical else Functional)
  {
    hide Run, JobsOk, FindingsOf, Canonical, SummariesFit, LiveCritical, AllThere, AllAttested;
    PromisesHold(cfg, steps, n);
  }

  lemma PatchNeverGoesBack(cfg: Config, s: System, n: string)
    requires SafeOk(cfg, s) && n in s.flights && s.flights[n].plan.next.Some?
    requires s.flights[n].done == |s.flights[n].plan.creates|
    ensures var f := s.flights[n];
            Edge(f.v.Phase(), f.v.(status := f.plan.next).Phase()) &&
            f.v.(status := f.plan.next).Phase().Rank() >= f.v.Phase().Rank()
  {
    hide ValidationOk, JobsOk, EventsOk, DispatchOk, EventsKnown, Created, Shape, Grows,
      PlanPending, PlanProvisioning, PlanScanning, PlanAggregating, PlanGating;
    var f := s.flights[n];
    assert FlightSafe(cfg, s.c, n, f) && FlightOk(s.c, n, f);
    if f.v.Phase().Scanning? {
      ScanningKeeps(cfg, f.read, n, f.v, f.listing, f.now);
      ScanningGoesOn(cfg, f.read, n, f.v, f.listing, f.now);
    }
  }

  lemma ScanningGoesOn(cfg: Config, c: Cluster, n: string, v: Validation, listing: seq<string>, now: Time)
    requires forall k | k in listing :: k in c.scanJobs
    requires listing != [] && v.Phase().Scanning?
    ensures var p := PlanScanning(cfg, c, n, v, listing, now);
            p.next.Some? && v.(status := p.next).Phase().Rank() >= 2
  {
  }

  lemma ContinueNeverGoesBack(cfg: Config, s: System, k: string, n: string)
    requires SafeOk(cfg, s) && k in s.flights && n in s.c.validations && n in ContinueFlight(s, k).c.validations
    ensures ContinueFlight(s, k).c.validations[n].Phase().Rank() >= s.c.validations[n].Phase().Rank()
  {
    hide FlightSafe, ValidationOk, JobsOk, EventsOk, DispatchOk, EventsKnown, Shape, Grows, Edge, ContinueFlight,
      ValidationsOk;
    assert FlightOk(s.c, k, s.flights[k]);
    ContinuedValidations(s, k);
    var f := s.flights[k];
    if f.done == |f.plan.creates| && f.plan.next.Some? {
      PatchNeverGoesBack(cfg, s, k);
    }
  }

  // Without external deletes no step ever takes a validation back
  lemma StepNeverGoesBack(cfg: Config, s: System, step: Step, n: string)
    requires SafeOk(cfg, s) && !IsDelete(step) && n in s.c.validations
    ensures n in Next(cfg, s, step).c.validations
    ensures Next(cfg, s, step).c.validations[n].Phase().Rank() >= s.c.validations[n].Phase().Rank()
  {
    OnlyTwoStepsWriteAStatus(cfg, s, step, n);
    StepFollowsTheChain(cfg, s, step, n);
    if step.AppendReceipt? && step.n == n { ReceiptFollowsTheChain(cfg, s, n, step.observed, step.now); }
    hide HistoryOk, JobsOk, ValidationOk, FlightSafe, Grows, Edge, ContinueFlight, Next;
    if step.Continue? && step.n in s.flights {
      ContinueNeverGoesBack(cfg, s, step.n, n);
    }
  }
}
