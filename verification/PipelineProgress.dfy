/** Progress: under every fair schedule a validation reaches a terminal phase, and the one thing that
    can keep it from ever doing so. */
module PipelineProgress {
  import opened Crds
  import opened StableOrder
  import opened Encodings
  import opened Evidence
  import opened Pipeline
  import opened PipelineHistory
  import opened ChildFindings
  import opened PipelineSafety

  // ---- How much is left to do ----

  // Phases a scan job still has to go through
  function PhaseLeft(c: Cluster, k: string): nat {
    if k !in c.scanJobs then 5
    else match c.scanJobs[k].Phase().GetOr(JobPending)
         case JobPending => 4 case Forking => 3 case Execing => 2 case Running => 1 case _ => 0
  }

  // Whether a scan job still waits for its Kubernetes job
  function FlagLeft(c: Cluster, k: string): nat {
    if PhaseLeft(c, k) == 0 || (k in c.jobs && c.jobs[k]) then 0 else 1
  }

  function JobsLeft(c: Cluster, names: seq<string>): nat {
    if names == [] then 0 else PhaseLeft(c, names[0]) + FlagLeft(c, names[0]) + JobsLeft(c, names[1..])
  }

  function TenantLeft(c: Cluster, n: string): nat {
    if TenantName(n) !in c.tenants then 2
    else if c.tenants[TenantName(n)].Phase() == Ready || c.tenants[TenantName(n)].Phase() == TenantScanning then 0
    else 1
  }

  function Rank(c: Cluster, n: string): nat
    requires n in c.validations
  {
    c.validations[n].Phase().Rank()
  }

  function Left(cfg: Config, c: Cluster, n: string): nat
    requires n in c.validations
  {
    6 - Rank(c, n) + TenantLeft(c, n) + JobsLeft(c, Names(cfg, n))
  }

  // The validation waits for its tenant or for a child, so reconciling it cannot move it on
  ghost predicate Waits(cfg: Config, c: Cluster, n: string)
    requires n in c.validations
  {
    (Rank(c, n) == 1 && TenantLeft(c, n) > 0) ||
    (Rank(c, n) == 2 && exists k :: k in Names(cfg, n) && PhaseLeft(c, k) > 0)
  }

  // A reconcile in progress that will move its validation on
  predicate Promising(f: Flight) {
    !f.Patched() && f.plan.next.Some? && f.v.(status := f.plan.next).Phase().Rank() > f.v.Phase().Rank()
  }

  function Stage(s: System, n: string): nat {
    if n !in s.flights then 1 else if Promising(s.flights[n]) then 0 else 2
  }

  function EffectsLeft(s: System, n: string): nat {
    if n !in s.flights || s.flights[n].Over() then 0
    else EffectCount(s.flights[n].plan, s.flights[n].v) - s.flights[n].done
  }

  // ---- What everything that happens keeps ----

  // Nothing that was done for n is undone
  ghost predicate Advances(cfg: Config, a: Cluster, b: Cluster, n: string) {
    && n in a.validations && n in b.validations && Rank(b, n) >= Rank(a, n)
    && TenantLeft(b, n) <= TenantLeft(a, n)
    && forall k | k in Names(cfg, n) :: PhaseLeft(b, k) <= PhaseLeft(a, k) && FlagLeft(b, k) <= FlagLeft(a, k)
  }

  // What a tenant that nobody tears down is like in each of its phases
  predicate TenantOk(t: Tenant) {
    if t.status.None? then true
    else
      var st := t.status.value;
      && st.allocatedAt.Some? && st.podsReady == st.podsTotal
      && (st.podsReady > 0 ==> st.ingressUrl.Some?)
      && ((t.Phase() == PodsRunning && st.readyAt.None? && st.ingressUrl.Some? && st.podsReady == 0) ||
        (t.Phase() == Ready && st.readyAt.Some?))
  }

  ghost predicate TenantsOk(c: Cluster) {
    forall k | k in c.tenants :: TenantOk(c.tenants[k])
  }

  // An unfinished child whose Kubernetes job is gone
  predicate Stranded(c: Cluster, k: string) {
    k in c.scanJobs && c.scanJobs[k].Phase().Some? && PhaseLeft(c, k) > 0 && k !in c.jobs
  }

  ghost predicate NoneStranded(cfg: Config, c: Cluster, n: string) {
    forall k | k in Names(cfg, n) :: !Stranded(c, k)
  }

  // A schedule may do anything but delete a child of any validation, or let a Kubernetes job of n expire
  // before its output was collected
  predicate Gentle(cfg: Config, s: System, step: Step, n: string) {
    && !IsDelete(step)
    && (step.ExpireJob? && step.jobName in Names(cfg, n) ==> PhaseLeft(s.c, step.jobName) == 0)
  }

  ghost predicate Good(cfg: Config, s: System, n: string) {
    SafeOk(cfg, s) && TenantsOk(s.c) && NoneStranded(cfg, s.c, n) && n in s.c.validations
  }

  // ---- One step ----

  // The children of n and its tenant, after anything happened: no further from done than before
  ghost predicate ChildAdvances(a: Cluster, b: Cluster, n: string, k: string) {
    && PhaseLeft(b, k) <= PhaseLeft(a, k) && FlagLeft(b, k) <= FlagLeft(a, k)
    && TenantLeft(b, n) <= TenantLeft(a, n)
    && (!Stranded(a, k) ==> !Stranded(b, k))
    && (TenantsOk(a) ==> TenantsOk(b))
  }

  predicate CreatesBlank(e: Effect) {
    (e.EnsureTenant? ==> e.tenant.status.None?) && (e.EnsureScanJob? ==> e.job.status.None?)
  }

  lemma EffectAdvances(c: Cluster, m: string, e: Effect, n: string, k: string)
    requires CreatesBlank(e)
    ensures ChildAdvances(c, ApplyEffect(c, m, e), n, k)
  {
  }

  lemma PlanCreatesBlank(cfg: Config, c: Cluster, n: string, listing: seq<string>, now: Time, i: nat)
    requires n in c.validations && Lists(c, n, listing)
    requires i < |PlanOf(cfg, c, n, listing, now).creates|
    ensures CreatesBlank(PlanOf(cfg, c, n, listing, now).creates[i])
  {
    hide RequiredScanners, ScanJobName, GateOf, Summaries;
  }

  lemma ContinueAdvances(cfg: Config, s: System, m: string, n: string, k: string)
    requires SafeOk(cfg, s) && m in s.flights
    ensures ChildAdvances(s.c, ContinueFlight(s, m).c, n, k)
  {
    hide HistoryOk, ValidationOk, JobsOk, PlanOf, Emitted, PhaseLeft, FlagLeft, TenantLeft, TenantsOk, Stranded,
      ApplyEffect, Created, Evolves, Lists, CreatesBlank;
    var f := s.flights[m];
    assert FlightSafe(cfg, s.c, m, f);
    if !f.Over() {
      var e := EffectAt(f.plan, f.v, f.done);
      assert CreatesBlank(e) by {
        if f.done < |f.plan.creates| { PlanCreatesBlank(cfg, f.read, m, f.listing, f.now, f.done); }
        else { assert CreatesBlank(e) by { assert e.PatchStatus? || e.Publish?; CreatesNothing(e); } }
      }
      EffectAdvances(s.c, m, e, n, k);
    } else {
      SameChildrenAdvance(s.c, s.c, n, k);
    }
  }

  lemma CreatesNothing(e: Effect)
    requires e.PatchStatus? || e.Publish?
    ensures CreatesBlank(e)
  {
  }

  lemma SameChildrenAdvance(a: Cluster, b: Cluster, n: string, k: string)
    requires b.tenants == a.tenants && b.scanJobs == a.scanJobs && b.jobs == a.jobs
    ensures ChildAdvances(a, b, n, k)
  {
  }

  lemma TenantAdvances(c: Cluster, d: Cluster, name: string, target: Target, now: Time, n: string, k: string)
    requires name in c.tenants && d == c.(tenants := c.tenants[name := TenantAfter(c.tenants[name], target, now)])
    ensures ChildAdvances(c, d, n, k)
  {
  }

  lemma ScanJobAdvances(cfg: Config, c: Cluster, name: string, report: seq<Finding>, n: string, k: string)
    requires name in c.scanJobs && JobOk(cfg, name, c.scanJobs[name])
    ensures var j := c.scanJobs[name];
            var jobs := if j.Phase().GetOr(JobPending) == JobPending &&
              name !in c.jobs then c.jobs[name := false] else c.jobs;
            var scanJobs := c.scanJobs[name := ScanJobNext(cfg, j, name in c.jobs && c.jobs[name], report)];
            ChildAdvances(c, c.(jobs := jobs), n, k) && ChildAdvances(c, c.(jobs := jobs, scanJobs := scanJobs), n, k)
  {
    hide RequiredScanners, ScanJobName, StampedBy, TenantOk;
  }

  lemma JobIsOk(cfg: Config, c: Cluster, k: string)
    requires JobsOk(cfg, c) && k in c.scanJobs
    ensures JobOk(cfg, k, c.scanJobs[k])
  {
  }

  lemma JobAdvances(c: Cluster, d: Cluster, name: string, n: string, k: string)
    requires d == c.(jobs := d.jobs) && name in c.jobs
    requires d.jobs == c.jobs[name := true] || (d.jobs == c.jobs - {name} && (name == k ==> PhaseLeft(c, k) == 0))
    ensures ChildAdvances(c, d, n, k)
  {
  }

  lemma StepAdvancesChild(cfg: Config, s: System, step: Step, n: string, k: string)
    requires SafeOk(cfg, s) && !IsDelete(step) && (step == ExpireJob(k) ==> PhaseLeft(s.c, k) == 0)
    ensures ChildAdvances(s.c, Next(cfg, s, step).c, n, k)
  {
    var t := Next(cfg, s, step);
    hide HistoryOk, ValidationOk, FlightSafe, JobsOk, ChildAdvances, TenantAfter, ScanJobNext, HandleDelivery,
      BuildReceipt, PlanOf, ContinueFlight, PhaseLeft;
    SameChildrenAdvance(s.c, s.c, n, k);
    match step
    case Continue(m) => if m in s.flights { ContinueAdvances(cfg, s, m, n, k); }
    case ReconcileTenant(name, target, now) =>
      if name in s.c.tenants { TenantAdvances(s.c, t.c, name, target, now, n, k); }
    case ReconcileScanJob(name, report, crashed) =>
      if name in s.c.scanJobs {
        assert JobOk(cfg, name, s.c.scanJobs[name]) by { JobIsOk(cfg, s.c, name); }
        ScanJobAdvances(cfg, s.c, name, report, n, k);
      }
    case FinishJob(name) => if name in s.c.jobs { JobAdvances(s.c, t.c, name, n, k); }
    case ExpireJob(name) => if name in s.c.jobs { if s.c.jobs[name] { JobAdvances(s.c, t.c, name, n, k); } }
    case _ => SameChildrenAdvance(s.c, t.c, n, k);
  }

  // Nothing a gentle step does undoes anything, kills included
  lemma StepAdvances(cfg: Config, s: System, step: Step, n: string)
    requires Good(cfg, s, n) && Gentle(cfg, s, step, n)
    ensures Good(cfg, Next(cfg, s, step), n) && Advances(cfg, s.c, Next(cfg, s, step).c, n)
  {
    hide HistoryOk, JobsOk, ValidationOk, FlightSafe, Next, PhaseLeft, FlagLeft, TenantLeft, TenantOk, TenantsOk,
      Stranded, Names;
    StepKeepsSafe(cfg, s, step);
    StepNeverGoesBack(cfg, s, step, n);
    hide SafeOk;
    var t := Next(cfg, s, step);
    StepAdvancesChild(cfg, s, step, n, if step == ExpireJob("") then "-" else "");
    forall k | k in Names(cfg, n)
      ensures PhaseLeft(t.c, k) <= PhaseLeft(s.c, k) && FlagLeft(t.c, k) <= FlagLeft(s.c, k) && !Stranded(t.c, k)
    {
      StepAdvancesChild(cfg, s, step, n, k);
    }
  }

  // ---- Remaining phases ----

  function PhasesLeft(c: Cluster, names: seq<string>): nat {
    if names == [] then 0 else PhaseLeft(c, names[0]) + PhasesLeft(c, names[1..])
  }

  // The phases n, its tenant and its scan jobs still have to go through
  function Remaining(cfg: Config, c: Cluster, n: string): nat
    requires n in c.validations
  {
    6 - Rank(c, n) + TenantLeft(c, n) + PhasesLeft(c, Names(cfg, n))
  }

  lemma {:induction false} PhasesLeftFalls(a: Cluster, b: Cluster, names: seq<string>)
    requires forall k | k in names :: PhaseLeft(b, k) <= PhaseLeft(a, k)
    ensures PhasesLeft(b, names) <= PhasesLeft(a, names)
  {
    hide PhaseLeft;
    if names != [] {
      assert names[0] in names && forall k | k in names[1..] :: k in names;
      PhasesLeftFalls(a, b, names[1..]);
    }
  }

  lemma StepKeepsPhase(cfg: Config, s: System, step: Step, n: string, k: string)
    requires SafeOk(cfg, s) && !IsDelete(step)
    ensures PhaseLeft(Next(cfg, s, step).c, k) <= PhaseLeft(s.c, k)
    ensures TenantLeft(Next(cfg, s, step).c, n) <= TenantLeft(s.c, n)
  {
    hide SafeOk, TenantOk, Stranded, FlagLeft, PlanOf, ContinueFlight, HandleDelivery, TenantAfter, ScanJobNext;
    if !step.ExpireJob? { StepAdvancesChild(cfg, s, step, n, k); }
  }

  // Short of an external delete no step raises it: no kill, no failed publish, no expiry
  lemma RemainingNeverRises(cfg: Config, s: System, step: Step, n: string)
    requires SafeOk(cfg, s) && !IsDelete(step) && n in s.c.validations
    ensures n in Next(cfg, s, step).c.validations
    ensures Remaining(cfg, Next(cfg, s, step).c, n) <= Remaining(cfg, s.c, n)
  {
    StepNeverGoesBack(cfg, s, step, n);
    var t := Next(cfg, s, step);
    hide SafeOk, HistoryOk, Next, PhaseLeft, TenantLeft, Names;
    StepKeepsPhase(cfg, s, step, n, "");
    forall k | k in Names(cfg, n) ensures PhaseLeft(t.c, k) <= PhaseLeft(s.c, k) {
      StepKeepsPhase(cfg, s, step, n, k);
    }
    PhasesLeftFalls(s.c, t.c, Names(cfg, n));
  }

  lemma {:induction false} RunKeepsRemaining(cfg: Config, s: System, steps: seq<Step>, n: string)
    requires SafeOk(cfg, s) && DeleteFree(steps) && n in s.c.validations
    ensures n in Run(cfg, s, steps).c.validations
    ensures Remaining(cfg, Run(cfg, s, steps).c, n) <= Remaining(cfg, s.c, n)
  {
    hide SafeOk, Next, Remaining;
    if steps != [] {
      RunKeepsRemaining(cfg, s, steps[..|steps| - 1], n);
      RunKeepsSafe(cfg, s, steps[..|steps| - 1]);
      RemainingNeverRises(cfg, Run(cfg, s, steps[..|steps| - 1]), steps[|steps| - 1], n);
    }
  }

  // Over every run without external deletes, whatever is killed, dropped or expires: the remaining phases of a
  // validation and of its scan jobs never rise
  lemma RemainingNeverRisesOnRuns(cfg: Config, steps: seq<Step>, more: seq<Step>, n: string)
    requires DeleteFree(steps) && DeleteFree(more) && n in Run(cfg, EMPTY_SYSTEM, steps).c.validations
    ensures n in Run(cfg, Run(cfg, EMPTY_SYSTEM, steps), more).c.validations
    ensures Remaining(cfg, Run(cfg, Run(cfg, EMPTY_SYSTEM, steps), more).c, n) <=
            Remaining(cfg, Run(cfg, EMPTY_SYSTEM, steps).c, n)
  {
    hide Run, Remaining;
    SafeHolds(cfg, steps);
    RunKeepsRemaining(cfg, Run(cfg, EMPTY_SYSTEM, steps), more, n);
  }

  // ---- The measure never rises, and while it stands still so does everything it counts ----

  lemma {:induction false} JobsLeftFalls(a: Cluster, b: Cluster, names: seq<string>)
    requires forall k | k in names :: PhaseLeft(b, k) <= PhaseLeft(a, k) && FlagLeft(b, k) <= FlagLeft(a, k)
    ensures JobsLeft(b, names) <= JobsLeft(a, names)
    ensures JobsLeft(b, names) == JobsLeft(a, names) ==>
              forall k | k in names :: PhaseLeft(b, k) == PhaseLeft(a, k) && FlagLeft(b, k) == FlagLeft(a, k)
  {
    hide PhaseLeft, FlagLeft;
    if names != [] {
      assert names[0] in names && forall k | k in names :: k == names[0] || k in names[1..];
      assert forall k | k in names[1..] :: k in names;
      JobsLeftFalls(a, b, names[1..]);
    }
  }

  ghost predicate StandsStill(cfg: Config, a: Cluster, b: Cluster, n: string)
    requires n in a.validations && n in b.validations
  {
    && Rank(b, n) == Rank(a, n) && TenantLeft(b, n) == TenantLeft(a, n)
    && forall k | k in Names(cfg, n) :: PhaseLeft(b, k) == PhaseLeft(a, k) && FlagLeft(b, k) == FlagLeft(a, k)
  }

  lemma LeftNeverRises(cfg: Config, a: Cluster, b: Cluster, n: string)
    requires Advances(cfg, a, b, n)
    ensures Left(cfg, b, n) <= Left(cfg, a, n)
    ensures Left(cfg, b, n) == Left(cfg, a, n) ==> StandsStill(cfg, a, b, n) && (Waits(cfg, b, n) <==> Waits(cfg, a, n))
  {
    hide Names, PhaseLeft, FlagLeft, TenantLeft;
    JobsLeftFalls(a, b, Names(cfg, n));
  }

  // ---- The step that helps ----

  datatype Help = TenantHelp | FinishHelp(job: string) | ScanHelp(job: string) | BeginHelp | ContinueHelp

  predicate Relevant(cfg: Config, n: string, h: Help) {
    (h.FinishHelp? || h.ScanHelp?) ==> h.job in Names(cfg, n)
  }

  // In this state, h brings n closer to its end
  ghost predicate Helps(cfg: Config, s: System, n: string, h: Help)
    requires n in s.c.validations
  {
    match h
    case TenantHelp => Rank(s.c, n) == 1 && TenantLeft(s.c, n) == 1
    case FinishHelp(k) => Rank(s.c, n) == 2 && k in Names(cfg, n) && PhaseLeft(s.c, k) == 1 && FlagLeft(s.c, k) == 1
    case ScanHelp(k) =>
      Rank(s.c, n) == 2 && k in Names(cfg, n) && PhaseLeft(s.c, k) > 0 &&
        (PhaseLeft(s.c, k) > 1 || FlagLeft(s.c, k) == 0)
    case BeginHelp => Rank(s.c, n) < 6 && !Waits(cfg, s.c, n) && n !in s.flights
    case ContinueHelp => Rank(s.c, n) < 6 && !Waits(cfg, s.c, n) && n in s.flights
  }

  // The tenant's target answers; a Kubernetes job finishes; a scan job is reconciled to the end;
  // a reconcile of n begins with a full list of its children; it does its next effect
  predicate Is(c: Cluster, n: string, h: Help, step: Step) {
    match h
    case TenantHelp => step.ReconcileTenant? && step.tenantName == TenantName(n) && !step.target.Waiting?
    case FinishHelp(k) => step == FinishJob(k)
    case ScanHelp(k) =>
      step.ReconcileScanJob? && step.jobName == k && !step.crashed
      && (k in c.scanJobs ==> StampedBy(c.scanJobs[k].scanner, step.report))
    case BeginHelp => step.Begin? && step.n == n && Lists(c, n, step.listing)
    case ContinueHelp => step == Continue(n)
  }

  lemma SomethingHelps(cfg: Config, s: System, n: string) returns (h: Help)
    requires Good(cfg, s, n) && Rank(s.c, n) < 6
    ensures Helps(cfg, s, n, h) && Relevant(cfg, n, h)
  {
    hide HistoryOk, JobsOk, FlightSafe, Names, SummariesFit, GateFits, FindingsOf, Canonical;
    assert ValidationOk(cfg, s.c, n, s.c.validations[n]);
    if Rank(s.c, n) == 1 && TenantLeft(s.c, n) > 0 {
      h := TenantHelp;
    } else if k :| Rank(s.c, n) == 2 && k in Names(cfg, n) && PhaseLeft(s.c, k) > 0 {
      h := if PhaseLeft(s.c, k) == 1 && FlagLeft(s.c, k) == 1 then FinishHelp(k) else ScanHelp(k);
    } else {
      h := if n in s.flights then ContinueHelp else BeginHelp;
    }
  }

  // Strictly closer to the end: less left to do, or as much and a reconcile that will do it further along
  ghost predicate Closer(cfg: Config, s: System, t: System, n: string)
    requires n in s.c.validations && n in t.c.validations
  {
    Left(cfg, t.c, n) < Left(cfg, s.c, n) ||
    (Left(cfg, t.c, n) == Left(cfg, s.c, n) && !Waits(cfg, s.c, n) && !Waits(cfg, t.c, n) &&
     (Stage(t, n) < Stage(s, n) || (Stage(t, n) == Stage(s, n) && EffectsLeft(t, n) < EffectsLeft(s, n))))
  }

  lemma NotStill(cfg: Config, s: System, t: System, n: string)
    requires Advances(cfg, s.c, t.c, n) && !StandsStill(cfg, s.c, t.c, n)
    ensures Left(cfg, t.c, n) < Left(cfg, s.c, n)
  {
    hide Advances, StandsStill, Left, Waits;
    LeftNeverRises(cfg, s.c, t.c, n);
  }

  // What ready means: a reconcile that begins now will move the validation on
  lemma ReadyPlansPromise(cfg: Config, c: Cluster, n: string, listing: seq<string>, now: Time)
    requires n in c.validations && Rank(c, n) < 6 && !Waits(cfg, c, n) && Lists(c, n, listing)
    requires JobsOk(cfg, c) && ValidationOk(cfg, c, n, c.validations[n]) && Shape(n, c.validations[n])
    ensures Promising(Flight(c, c.validations[n], listing, now, PlanOf(cfg, c, n, listing, now), 0))
  {
    hide Names, SummariesFit, GateFits, FindingsOf, Canonical, JobsOk, GateOf, Summaries, CreateScanJobs,
      FreshSummaries;
    if c.validations[n].Phase().Scanning? {
      ScanningKeeps(cfg, c, n, c.validations[n], listing, now);
      ListingIsTheNames(cfg, c, n, listing);
      assert forall k | k in listing :: TerminalJob(c.scanJobs[k]) by {
        forall k | k in listing ensures TerminalJob(c.scanJobs[k]) {
          JobIsOk(cfg, c, k);
          assert PhaseLeft(c, k) == 0;
        }
      }
    }
  }

  lemma BeginCloser(cfg: Config, s: System, n: string, step: Step)
    requires Good(cfg, s, n) && Helps(cfg, s, n, BeginHelp) && Is(s.c, n, BeginHelp, step)
    requires Advances(cfg, s.c, Next(cfg, s, step).c, n)
    ensures Closer(cfg, s, Next(cfg, s, step), n)
  {
    hide Names, ValidationOk, JobsOk, FlightOk, FlightSafe, EventsOk, DispatchOk, EventsKnown, Shape, PlanOf, Lists,
      PhaseLeft, FlagLeft, TenantLeft, Emitted;
    assert Shape(n, s.c.validations[n]) && ValidationOk(cfg, s.c, n, s.c.validations[n]) && JobsOk(cfg, s.c);
    ReadyPlansPromise(cfg, s.c, n, step.listing, step.now);
  }

  lemma ContinueCloser(cfg: Config, s: System, n: string)
    requires Good(cfg, s, n) && Helps(cfg, s, n, ContinueHelp)
    requires Advances(cfg, s.c, ContinueFlight(s, n).c, n)
    ensures Closer(cfg, s, ContinueFlight(s, n), n)
  {
    hide Names, ValidationOk, JobsOk, EventsOk, DispatchOk, EventsKnown, Shape, PlanOf, Lists, FlightSafe,
      PhaseLeft, FlagLeft, TenantLeft, Emitted, Grows, Left, ApplyEffect;
    var f, t := s.flights[n], ContinueFlight(s, n);
    assert FlightOk(s.c, n, f);
    LeftNeverRises(cfg, s.c, t.c, n);
    ContinuedValidations(s, n);
    if Promising(f) && f.done == |f.plan.creates| {
      assert Rank(t.c, n) > Rank(s.c, n);
    }
  }

  lemma ScanJobMoves(cfg: Config, c: Cluster, k: string, report: seq<Finding>)
    requires k in c.scanJobs && JobOk(cfg, k, c.scanJobs[k])
    requires PhaseLeft(c, k) > 1 || (PhaseLeft(c, k) == 1 && FlagLeft(c, k) == 0)
    ensures var next := ScanJobNext(cfg, c.scanJobs[k], k in c.jobs && c.jobs[k], report);
            PhaseLeft(c.(scanJobs := c.scanJobs[k := next]), k) < PhaseLeft(c, k)
  {
    hide RequiredScanners, ScanJobName, StampedBy;
  }

  lemma ScanHelps(cfg: Config, s: System, n: string, k: string, step: Step)
    requires Good(cfg, s, n) && Helps(cfg, s, n, ScanHelp(k)) && Is(s.c, n, ScanHelp(k), step)
    ensures PhaseLeft(Next(cfg, s, step).c, k) < PhaseLeft(s.c, k)
  {
    hide HistoryOk, FlightSafe, Names, JobOk, ScanJobNext, FindingsOf, SummariesFit, GateFits, StampedBy;
    assert ValidationOk(cfg, s.c, n, s.c.validations[n]);
    JobIsOk(cfg, s.c, k);
    ScanJobMoves(cfg, s.c, k, step.report);
  }

  lemma TenantHelps(cfg: Config, s: System, n: string, step: Step)
    requires Good(cfg, s, n) && Helps(cfg, s, n, TenantHelp) && Is(s.c, n, TenantHelp, step)
    ensures TenantLeft(Next(cfg, s, step).c, n) < TenantLeft(s.c, n)
  {
    hide SafeOk, NoneStranded, TenantName;
    assert TenantOk(s.c.tenants[TenantName(n)]);
  }

  lemma FinishHelps(cfg: Config, s: System, n: string, k: string, step: Step)
    requires Good(cfg, s, n) && Helps(cfg, s, n, FinishHelp(k)) && Is(s.c, n, FinishHelp(k), step)
    ensures FlagLeft(Next(cfg, s, step).c, k) < FlagLeft(s.c, k)
  {
    hide SafeOk, TenantsOk, Names;
    assert !Stranded(s.c, k);
  }

  lemma HelpCloser(cfg: Config, s: System, n: string, h: Help, step: Step)
    requires Good(cfg, s, n) && Helps(cfg, s, n, h) && Is(s.c, n, h, step)
    requires Advances(cfg, s.c, Next(cfg, s, step).c, n)
    ensures Closer(cfg, s, Next(cfg, s, step), n)
    ensures !h.BeginHelp? && !h.ContinueHelp? ==> Left(cfg, Next(cfg, s, step).c, n) < Left(cfg, s.c, n)
  {
    var t := Next(cfg, s, step);
    match h {
      case TenantHelp => TenantHelps(cfg, s, n, step);
      case FinishHelp(k) => FinishHelps(cfg, s, n, k, step);
      case ScanHelp(k) => ScanHelps(cfg, s, n, k, step);
      case BeginHelp => BeginCloser(cfg, s, n, step);
      case ContinueHelp =>
        NextIs(cfg, s, Continue(n));
        ContinueCloser(cfg, s, n);
    }
    hide Good, Advances, Next, PhaseLeft, FlagLeft, TenantLeft, Names, Waits, Left, Stage, EffectsLeft;
    if !h.BeginHelp? && !h.ContinueHelp? {
      NotStill(cfg, s, t, n);
    }
  }

  // ---- A reconcile that nobody kills keeps its promise ----

  lemma SameFlight(cfg: Config, s: System, step: Step, n: string)
    requires n in s.flights && step != Crash(n) && step != Continue(n) && !s.flights[n].Patched()
    ensures n in Next(cfg, s, step).flights && Next(cfg, s, step).flights[n] == s.flights[n]
  {
    hide PlanOf, TenantAfter, ScanJobNext, HandleDelivery, BuildReceipt, Lists, ApplyEffect, EffectCount;
  }

  lemma ContinuePromises(cfg: Config, s: System, n: string)
    requires Good(cfg, s, n) && n in s.flights && Promising(s.flights[n])
    requires Advances(cfg, s.c, ContinueFlight(s, n).c, n)
    requires Left(cfg, ContinueFlight(s, n).c, n) == Left(cfg, s.c, n)
    ensures n in ContinueFlight(s, n).flights && Promising(ContinueFlight(s, n).flights[n])
  {
    hide Names, ValidationOk, JobsOk, EventsOk, DispatchOk, EventsKnown, Shape, PlanOf, Lists, FlightSafe,
      PhaseLeft, FlagLeft, TenantLeft, Emitted, Grows, Left, ApplyEffect, Waits;
    var f, t := s.flights[n], ContinueFlight(s, n);
    assert FlightOk(s.c, n, f);
    LeftNeverRises(cfg, s.c, t.c, n);
    ContinuedValidations(s, n);
  }

  // While nothing else changes for n, a promising reconcile under way stays one
  lemma StepKeepsPromising(cfg: Config, s: System, step: Step, n: string)
    requires Good(cfg, s, n) && Gentle(cfg, s, step, n) && step != Crash(n)
    requires n in s.flights && Promising(s.flights[n]) && n in Next(cfg, s, step).c.validations
    requires Left(cfg, Next(cfg, s, step).c, n) == Left(cfg, s.c, n)
    ensures n in Next(cfg, s, step).flights && Promising(Next(cfg, s, step).flights[n])
  {
    StepAdvances(cfg, s, step, n);
    hide Good, Next, Advances, Left, Gentle, ContinueFlight;
    if step == Continue(n) {
      NextIs(cfg, s, Continue(n));
      ContinuePromises(cfg, s, n);
    } else {
      SameFlight(cfg, s, step, n);
    }
  }

  lemma BeginPromises(cfg: Config, s: System, n: string, step: Step)
    requires Good(cfg, s, n) && Rank(s.c, n) < 6 && !Waits(cfg, s.c, n) && n !in s.flights &&
             Is(s.c, n, BeginHelp, step)
    ensures n in Next(cfg, s, step).flights && Promising(Next(cfg, s, step).flights[n])
  {
    hide Names, ValidationOk, JobsOk, FlightOk, FlightSafe, EventsOk, DispatchOk, EventsKnown, Shape, PlanOf, Lists,
      PhaseLeft, FlagLeft, TenantLeft, Emitted, Waits;
    assert Shape(n, s.c.validations[n]) && ValidationOk(cfg, s.c, n, s.c.validations[n]) && JobsOk(cfg, s.c);
    ReadyPlansPromise(cfg, s.c, n, step.listing, step.now);
  }

  // ---- Fair schedules ----

  function State(cfg: Config, s: System, schedule: nat -> Step, i: nat): System {
    if i == 0 then s else Next(cfg, State(cfg, s, schedule, i - 1), schedule(i - 1))
  }

  ghost predicate Comes(cfg: Config, s: System, schedule: nat -> Step, n: string, h: Help, i: nat) {
    exists j: nat :: i <= j && Is(State(cfg, s, schedule, j).c, n, h, schedule(j))
  }

  // A reconcile of n begins at j, nobody kills it, and by e it is over
  ghost predicate Completes(cfg: Config, s: System, schedule: nat -> Step, n: string, j: nat, e: nat) {
    && j < e
    && n !in State(cfg, s, schedule, j).flights && Is(State(cfg, s, schedule, j).c, n, BeginHelp, schedule(j))
    && n !in State(cfg, s, schedule, e).flights
    && forall m: nat | j < m < e :: schedule(m) != Crash(n)
  }

  ghost predicate CompletesAfter(cfg: Config, s: System, schedule: nat -> Step, n: string, i: nat) {
    exists j: nat, e: nat :: i <= j && Completes(cfg, s, schedule, n, j, e)
  }

  // The tenant's target answers again and again, as do the Kubernetes jobs and the scan jobs' reconciles, and
  // again and again a reconcile of n gets to its end; any others may be killed
  ghost predicate Fair(cfg: Config, s: System, schedule: nat -> Step, n: string) {
    && (forall h, i: nat | Relevant(cfg, n, h) && !h.BeginHelp? && !h.ContinueHelp? :: Comes(cfg, s, schedule, n, h, i))
    && forall i: nat :: CompletesAfter(cfg, s, schedule, n, i)
  }

  ghost predicate AlwaysGentle(cfg: Config, s: System, schedule: nat -> Step, n: string) {
    forall i: nat :: Gentle(cfg, State(cfg, s, schedule, i), schedule(i), n)
  }

  lemma StateStep(cfg: Config, s: System, schedule: nat -> Step, n: string, i: nat)
    requires AlwaysGentle(cfg, s, schedule, n)
    ensures State(cfg, s, schedule, i + 1) == Next(cfg, State(cfg, s, schedule, i), schedule(i))
    ensures Gentle(cfg, State(cfg, s, schedule, i), schedule(i), n)
  {
    hide Next, Gentle;
  }

  lemma {:induction false} StaysGood(cfg: Config, s: System, schedule: nat -> Step, n: string, i: nat)
    requires Good(cfg, s, n) && AlwaysGentle(cfg, s, schedule, n)
    ensures Good(cfg, State(cfg, s, schedule, i), n)
  {
    hide Good, Next, Gentle, Advances, AlwaysGentle;
    if i > 0 {
      StaysGood(cfg, s, schedule, n, i - 1);
      StateStep(cfg, s, schedule, n, i - 1);
      hide State;
      StepAdvances(cfg, State(cfg, s, schedule, i - 1), schedule(i - 1), n);
    }
  }

  lemma GoodHasIt(cfg: Config, s: System, n: string)
    requires Good(cfg, s, n)
    ensures n in s.c.validations
  {
  }

  lemma AdvancesRefl(cfg: Config, a: Cluster, n: string)
    requires n in a.validations
    ensures Advances(cfg, a, a, n)
  {
  }

  lemma AdvancesTrans(cfg: Config, a: Cluster, b: Cluster, c: Cluster, n: string)
    requires Advances(cfg, a, b, n) && Advances(cfg, b, c, n)
    ensures Advances(cfg, a, c, n)
  {
    hide PhaseLeft, FlagLeft, TenantLeft, Names;
  }

  lemma {:induction false} ScheduleAdvances(cfg: Config, s: System, schedule: nat -> Step, n: string, i: nat, j: nat)
    requires Good(cfg, s, n) && AlwaysGentle(cfg, s, schedule, n) && i <= j
    ensures Advances(cfg, State(cfg, s, schedule, i).c, State(cfg, s, schedule, j).c, n)
    decreases j - i
  {
    hide Good, Next, Gentle, Advances, AlwaysGentle, State;
    StaysGood(cfg, s, schedule, n, i);
    if i == j {
      GoodHasIt(cfg, State(cfg, s, schedule, i), n);
      AdvancesRefl(cfg, State(cfg, s, schedule, i).c, n);
    } else {
      ScheduleAdvances(cfg, s, schedule, n, i + 1, j);
      StateStep(cfg, s, schedule, n, i);
      StepAdvances(cfg, State(cfg, s, schedule, i), schedule(i), n);
      var a, b, c := State(cfg, s, schedule, i).c, State(cfg, s, schedule, i + 1).c, State(cfg, s, schedule, j).c;
      AdvancesTrans(cfg, a, b, c, n);
    }
  }

  lemma AdvancesHaveIt(cfg: Config, a: Cluster, b: Cluster, n: string)
    requires Advances(cfg, a, b, n)
    ensures n in a.validations && n in b.validations
  {
  }

  lemma HelpStays(cfg: Config, s: System, t: System, n: string, h: Help)
    requires n in s.c.validations && n in t.c.validations && StandsStill(cfg, s.c, t.c, n) && Helps(cfg, s, n, h)
    requires !h.BeginHelp? && !h.ContinueHelp?
    ensures Helps(cfg, t, n, h)
  {
    hide Names, PhaseLeft, FlagLeft, TenantLeft;
  }

  // By the time the help comes, less is left to do
  lemma HelpArrives(cfg: Config, s: System, schedule: nat -> Step, n: string, h: Help, i: nat, j: nat)
    requires Good(cfg, s, n) && AlwaysGentle(cfg, s, schedule, n) && i <= j && !h.BeginHelp? && !h.ContinueHelp?
    requires n in State(cfg, s, schedule, i).c.validations && n in State(cfg, s, schedule, j + 1).c.validations
    requires Helps(cfg, State(cfg, s, schedule, i), n, h) && Is(State(cfg, s, schedule, j).c, n, h, schedule(j))
    ensures Left(cfg, State(cfg, s, schedule, j + 1).c, n) < Left(cfg, State(cfg, s, schedule, i).c, n)
  {
    hide Good, Next, Gentle, Is, Advances, State, AlwaysGentle, Helps, Left, Waits, StandsStill;
    var a, b, c := State(cfg, s, schedule, i), State(cfg, s, schedule, j), State(cfg, s, schedule, j + 1);
    StaysGood(cfg, s, schedule, n, j);
    GoodHasIt(cfg, b, n);
    ScheduleAdvances(cfg, s, schedule, n, i, j);
    LeftNeverRises(cfg, a.c, b.c, n);
    StateStep(cfg, s, schedule, n, j);
    StepAdvances(cfg, b, schedule(j), n);
    LeftNeverRises(cfg, b.c, c.c, n);
    if Left(cfg, b.c, n) == Left(cfg, a.c, n) {
      HelpStays(cfg, a, b, n, h);
      HelpCloser(cfg, b, n, h, schedule(j));
    }
  }

  // A promising reconcile that nobody kills is still under way as long as nothing has changed for n
  lemma {:induction false} PromiseIsKept(cfg: Config, s: System, schedule: nat -> Step, n: string, j: nat, m: nat)
    requires Good(cfg, s, n) && AlwaysGentle(cfg, s, schedule, n) && j <= m
    requires n in State(cfg, s, schedule, j).flights && Promising(State(cfg, s, schedule, j).flights[n])
    requires forall k: nat | j <= k < m :: schedule(k) != Crash(n)
    requires n in State(cfg, s, schedule, j).c.validations && n in State(cfg, s, schedule, m).c.validations
    requires Left(cfg, State(cfg, s, schedule, m).c, n) == Left(cfg, State(cfg, s, schedule, j).c, n)
    ensures n in State(cfg, s, schedule, m).flights && Promising(State(cfg, s, schedule, m).flights[n])
    decreases m - j
  {
    hide Good, Next, Gentle, Advances, State, AlwaysGentle, Left, Waits, StandsStill;
    if j < m {
      var before, now := State(cfg, s, schedule, m - 1), State(cfg, s, schedule, m);
      StaysGood(cfg, s, schedule, n, m - 1);
      GoodHasIt(cfg, before, n);
      ScheduleAdvances(cfg, s, schedule, n, j, m - 1);
      LeftNeverRises(cfg, State(cfg, s, schedule, j).c, before.c, n);
      StateStep(cfg, s, schedule, n, m - 1);
      StepAdvances(cfg, before, schedule(m - 1), n);
      LeftNeverRises(cfg, before.c, now.c, n);
      PromiseIsKept(cfg, s, schedule, n, j, m - 1);
      StepKeepsPromising(cfg, before, schedule(m - 1), n);
    }
  }

  // Where n waits for nobody, a reconcile that gets to its end leaves less to do
  lemma CompletionMovesOn(cfg: Config, s: System, schedule: nat -> Step, n: string, i: nat, j: nat, e: nat)
    requires Good(cfg, s, n) && AlwaysGentle(cfg, s, schedule, n) && i <= j && Completes(cfg, s, schedule, n, j, e)
    requires n in State(cfg, s, schedule, i).c.validations && n in State(cfg, s, schedule, e).c.validations
    requires Rank(State(cfg, s, schedule, i).c, n) < 6 && !Waits(cfg, State(cfg, s, schedule, i).c, n)
    ensures Left(cfg, State(cfg, s, schedule, e).c, n) < Left(cfg, State(cfg, s, schedule, i).c, n)
  {
    hide Good, Next, Gentle, Is, Advances, State, AlwaysGentle, Left, Waits;
    var a, b := State(cfg, s, schedule, i), State(cfg, s, schedule, j);
    var c, d := State(cfg, s, schedule, j + 1), State(cfg, s, schedule, e);
    StaysGood(cfg, s, schedule, n, j);
    StaysGood(cfg, s, schedule, n, j + 1);
    GoodHasIt(cfg, b, n);
    GoodHasIt(cfg, c, n);
    ScheduleAdvances(cfg, s, schedule, n, i, j);
    ScheduleAdvances(cfg, s, schedule, n, j, j + 1);
    ScheduleAdvances(cfg, s, schedule, n, j + 1, e);
    LeftNeverRises(cfg, a.c, b.c, n);
    LeftNeverRises(cfg, b.c, c.c, n);
    LeftNeverRises(cfg, c.c, d.c, n);
    if Left(cfg, d.c, n) == Left(cfg, a.c, n) {
      StateStep(cfg, s, schedule, n, j);
      BeginPromises(cfg, b, n, schedule(j));
      PromiseIsKept(cfg, s, schedule, n, j + 1, e);
    }
  }

  // The heart of it: on every fair and gentle schedule less and less is left to do, hence nothing in the end
  lemma {:induction false} EndsFrom(cfg: Config, s: System, schedule: nat -> Step, n: string, i: nat) returns (m: nat)
    requires Good(cfg, s, n) && AlwaysGentle(cfg, s, schedule, n) && Fair(cfg, s, schedule, n)
    requires n in State(cfg, s, schedule, i).c.validations
    ensures Good(cfg, State(cfg, s, schedule, m), n)
    ensures n in State(cfg, s, schedule, m).c.validations && Rank(State(cfg, s, schedule, m).c, n) == 6
    decreases Left(cfg, State(cfg, s, schedule, i).c, n)
  {
    hide Good, Next, Gentle, Is, AlwaysGentle, State, Left, Waits, Helps, Completes;
    var a := State(cfg, s, schedule, i);
    StaysGood(cfg, s, schedule, n, i);
    m := i;
    if Rank(a.c, n) < 6 {
      var h := SomethingHelps(cfg, a, n);
      if h.BeginHelp? || h.ContinueHelp? {
        ReadyMeansNoWaiting(cfg, a, n, h);
        assert CompletesAfter(cfg, s, schedule, n, i);
        var j: nat, e: nat :| i <= j && Completes(cfg, s, schedule, n, j, e);
        StaysGood(cfg, s, schedule, n, e);
        GoodHasIt(cfg, State(cfg, s, schedule, e), n);
        CompletionMovesOn(cfg, s, schedule, n, i, j, e);
        m := EndsFrom(cfg, s, schedule, n, e);
      } else {
        assert Comes(cfg, s, schedule, n, h, i);
        var j: nat :| i <= j && Is(State(cfg, s, schedule, j).c, n, h, schedule(j));
        StaysGood(cfg, s, schedule, n, j + 1);
        GoodHasIt(cfg, State(cfg, s, schedule, j + 1), n);
        HelpArrives(cfg, s, schedule, n, h, i, j);
        m := EndsFrom(cfg, s, schedule, n, j + 1);
      }
    }
  }

  lemma ReadyMeansNoWaiting(cfg: Config, s: System, n: string, h: Help)
    requires n in s.c.validations && Helps(cfg, s, n, h) && (h.BeginHelp? || h.ContinueHelp?)
    ensures !Waits(cfg, s.c, n)
  {
    hide Waits;
  }

  // From every state that a run without deletes reaches, with no child stranded: every fair schedule brings the
  // validation to its verdict, however many of its reconciles are killed and of its events dropped
  lemma FairSchedulesFinish(cfg: Config, steps: seq<Step>, schedule: nat -> Step, n: string)
    requires DeleteFree(steps)
    requires var s := Run(cfg, EMPTY_SYSTEM, steps);
             && n in s.c.validations && NoneStranded(cfg, s.c, n)
             && AlwaysGentle(cfg, s, schedule, n) && Fair(cfg, s, schedule, n)
    ensures var s := Run(cfg, EMPTY_SYSTEM, steps);
            exists m: nat :: var c := State(cfg, s, schedule, m).c;
              n in c.validations && c.validations[n].Phase().Terminal() && c.validations[n].Status().gateDecision.Some?
  {
    SafeHolds(cfg, steps);
    TenantsHold(cfg, steps);
    var s := Run(cfg, EMPTY_SYSTEM, steps);
    assert State(cfg, s, schedule, 0) == s;
    hide Next, Run, State, NoneStranded, TenantsOk, Fair, AlwaysGentle;
    var m := EndsFrom(cfg, s, schedule, n, 0);
    EndHasVerdict(cfg, State(cfg, s, schedule, m), n);
  }

  lemma EndHasVerdict(cfg: Config, s: System, n: string)
    requires Good(cfg, s, n) && Rank(s.c, n) == 6
    ensures n in s.c.validations && s.c.validations[n].Phase().Terminal() &&
      s.c.validations[n].Status().gateDecision.Some?
  {
    hide JobsOk, FlightSafe, HistoryOk, FindingsOf, SummariesFit, GateFits, Canonical, NoneStranded, TenantsOk;
    assert ValidationOk(cfg, s.c, n, s.c.validations[n]);
  }

  lemma {:induction false} TenantsHold(cfg: Config, steps: seq<Step>)
    requires DeleteFree(steps)
    ensures TenantsOk(Run(cfg, EMPTY_SYSTEM, steps).c)
  {
    if steps != [] {
      var before, last := Run(cfg, EMPTY_SYSTEM, steps[..|steps| - 1]), steps[|steps| - 1];
      TenantsHold(cfg, steps[..|steps| - 1]);
      SafeHolds(cfg, steps[..|steps| - 1]);
      hide SafeOk, Next, TenantsOk;
      StepKeepsTenants(cfg, before, last);
    }
  }

  lemma StepKeepsTenants(cfg: Config, s: System, step: Step)
    requires SafeOk(cfg, s) && TenantsOk(s.c) && !IsDelete(step)
    ensures TenantsOk(Next(cfg, s, step).c)
  {
    hide SafeOk, ContinueFlight, PlanOf, ScanJobNext, HandleDelivery, BuildReceipt;
    if step.Continue? && step.n in s.flights {
      ContinueAdvances(cfg, s, step.n, step.n, "");
    }
  }

  // ---- The one thing that prevents it ----

  // A child gets stranded in exactly one way: its Kubernetes job has finished, the scan job is under way
  // and has not collected the output, and the job expires
  lemma OnlyExpiryStrands(cfg: Config, s: System, step: Step, k: string)
    requires SafeOk(cfg, s) && !IsDelete(step) && !Stranded(s.c, k)
    ensures Stranded(Next(cfg, s, step).c, k) <==>
            && step == ExpireJob(k) && k in s.c.jobs && s.c.jobs[k]
            && k in s.c.scanJobs && s.c.scanJobs[k].Phase().Some? && PhaseLeft(s.c, k) > 0
  {
    hide SafeOk, PlanOf, TenantAfter, HandleDelivery, BuildReceipt, ScanJobNext, ContinueFlight;
    if !step.ExpireJob? { StepAdvancesChild(cfg, s, step, "", k); }
  }

  lemma ScanJobStaysStranded(cfg: Config, c: Cluster, name: string, report: seq<Finding>, k: string)
    requires name in c.scanJobs && JobOk(cfg, name, c.scanJobs[name]) && Stranded(c, k)
    ensures var j := c.scanJobs[name];
            var jobs := if j.Phase().GetOr(JobPending) == JobPending &&
              name !in c.jobs then c.jobs[name := false] else c.jobs;
            var scanJobs := c.scanJobs[name := ScanJobNext(cfg, j, name in c.jobs && c.jobs[name], report)];
            Stranded(c.(jobs := jobs), k) && Stranded(c.(jobs := jobs, scanJobs := scanJobs), k)
  {
    hide RequiredScanners, ScanJobName, StampedBy;
  }

  lemma EffectStaysStranded(c: Cluster, m: string, e: Effect, k: string)
    requires Stranded(c, k)
    ensures Stranded(ApplyEffect(c, m, e), k)
  {
  }

  // Nothing brings back a Kubernetes job that expired before its output was collected
  lemma StrandedStays(cfg: Config, s: System, step: Step, k: string)
    requires JobsOk(cfg, s.c) && !IsDelete(step) && Stranded(s.c, k)
    ensures Stranded(Next(cfg, s, step).c, k)
  {
    hide JobsOk, PlanOf, TenantAfter, HandleDelivery, BuildReceipt, ScanJobNext, EffectAt, StampedBy, ApplyEffect,
      EffectCount;
    if step.Continue? && step.n in s.flights && !s.flights[step.n].Over() {
      var f := s.flights[step.n];
      EffectStaysStranded(s.c, step.n, EffectAt(f.plan, f.v, f.done), k);
    }
    if step.ReconcileScanJob? && step.jobName in s.c.scanJobs {
      JobIsOk(cfg, s.c, step.jobName);
      ScanJobStaysStranded(cfg, s.c, step.jobName, step.report, k);
    }
  }

  lemma {:induction false} RunStaysStranded(cfg: Config, s: System, steps: seq<Step>, k: string)
    requires SafeOk(cfg, s) && DeleteFree(steps) && Stranded(s.c, k)
    ensures Stranded(Run(cfg, s, steps).c, k)
  {
    hide HistoryOk, FlightSafe, JobsOk, ValidationOk, Next, Stranded;
    if steps != [] {
      RunStaysStranded(cfg, s, steps[..|steps| - 1], k);
      RunKeepsSafe(cfg, s, steps[..|steps| - 1]);
      StrandedStays(cfg, Run(cfg, s, steps[..|steps| - 1]), steps[|steps| - 1], k);
    }
  }

  // A validation with a stranded child never gets past Scanning, whatever happens afterwards
  lemma StrandedNeverFinishes(cfg: Config, steps: seq<Step>, more: seq<Step>, n: string)
    requires DeleteFree(steps) && DeleteFree(more)
    requires var s := Run(cfg, EMPTY_SYSTEM, steps); n in s.c.validations && !NoneStranded(cfg, s.c, n)
    ensures var t := Run(cfg, Run(cfg, EMPTY_SYSTEM, steps), more);
            n in t.c.validations && t.c.validations[n].Phase().Rank() <= 2
  {
    var s := Run(cfg, EMPTY_SYSTEM, steps);
    SafeHolds(cfg, steps);
    RunKeepsSafe(cfg, s, more);
    hide Run, Stranded, SafeOk, Names;
    var k :| k in Names(cfg, n) && Stranded(s.c, k);
    RunStaysStranded(cfg, s, more, k);
    SafeHasHistory(cfg, s);
    RunGrows(cfg, s, more, n);
    StrandedIsNotDone(cfg, Run(cfg, s, more), n, k);
  }

  lemma StrandedIsNotDone(cfg: Config, s: System, n: string, k: string)
    requires SafeOk(cfg, s) && n in s.c.validations && k in Names(cfg, n) && Stranded(s.c, k)
    ensures s.c.validations[n].Phase().Rank() <= 2
  {
    hide HistoryOk, FlightSafe, JobsOk, Names, FindingsOf, Canonical, SummariesFit, GateFits;
    assert ValidationOk(cfg, s.c, n, s.c.validations[n]);
  }

  // ---- Both together: when a validation can still finish ----

  lemma {:induction false} RunFrom(cfg: Config, s: System, step: Step, steps: seq<Step>)
    ensures Run(cfg, s, [step] + steps) == Run(cfg, Next(cfg, s, step), steps)
  {
    hide Next;
    if steps == [] {
      assert [step] + steps == [step] && [step][..0] == [];
      assert Run(cfg, s, []) == s;
    } else {
      var all := [step] + steps;
      assert all[..|all| - 1] == [step] + steps[..|steps| - 1];
      RunFrom(cfg, s, step, steps[..|steps| - 1]);
    }
  }

  lemma SomeListing(c: Cluster, n: string) returns (listing: seq<string>)
    ensures Lists(c, n, listing)
  {
    listing := SomeOrder(set k | k in c.scanJobs && c.scanJobs[k].parent == n);
  }

  // Every help can be had at once
  lemma HelpIsAtHand(s: System, n: string, h: Help) returns (step: Step)
    ensures Is(s.c, n, h, step) && !IsDelete(step) && !step.ExpireJob?
  {
    match h
    case TenantHelp => step := ReconcileTenant(TenantName(n), NoTargetFed, 0);
    case FinishHelp(k) => step := FinishJob(k);
    case ScanHelp(k) => step := ReconcileScanJob(k, [], false);
    case BeginHelp => var listing := SomeListing(s.c, n); step := Begin(n, listing, 0);
    case ContinueHelp => step := Continue(n);
  }

  lemma {:induction false} CanFinish(cfg: Config, s: System, n: string) returns (steps: seq<Step>)
    requires Good(cfg, s, n)
    ensures DeleteFree(steps) && Good(cfg, Run(cfg, s, steps), n) && Rank(Run(cfg, s, steps).c, n) == 6
    decreases Left(cfg, s.c, n), if Waits(cfg, s.c, n) then 0 else Stage(s, n), if Waits(cfg, s.c, n) then 0
      else EffectsLeft(s, n)
  {
    hide Good, Next, Run, Is, Left, Waits, Stage, EffectsLeft, Helps, Advances;
    GoodHasIt(cfg, s, n);
    steps := [];
    if Rank(s.c, n) < 6 {
      var h := SomethingHelps(cfg, s, n);
      var step := HelpIsAtHand(s, n, h);
      StepAdvances(cfg, s, step, n);
      HelpCloser(cfg, s, n, h, step);
      var t := Next(cfg, s, step);
      GoodHasIt(cfg, t, n);
      var rest := CanFinish(cfg, t, n);
      RunFrom(cfg, s, step, rest);
      steps := [step] + rest;
    } else {
      RunNothing(cfg, s);
    }
  }

  lemma RunNothing(cfg: Config, s: System)
    ensures Run(cfg, s, []) == s
  {
  }

  ghost predicate CanEnd(cfg: Config, s: System, n: string) {
    exists more :: DeleteFree(more) && n in Run(cfg, s, more).c.validations &&
      Run(cfg, s, more).c.validations[n].Phase().Terminal()
  }

  lemma GoodCanEnd(cfg: Config, s: System, n: string)
    requires Good(cfg, s, n)
    ensures CanEnd(cfg, s, n)
  {
    hide Run, Good, Rank, DeleteFree;
    var more := CanFinish(cfg, s, n);
    EndHasVerdict(cfg, Run(cfg, s, more), n);
  }

  lemma StrandedCannotEnd(cfg: Config, steps: seq<Step>, n: string)
    requires var s := Run(cfg, EMPTY_SYSTEM, steps);
             DeleteFree(steps) && n in s.c.validations && !NoneStranded(cfg, s.c, n)
    ensures !CanEnd(cfg, Run(cfg, EMPTY_SYSTEM, steps), n)
  {
    hide Run, NoneStranded, DeleteFree;
    var s := Run(cfg, EMPTY_SYSTEM, steps);
    forall more | DeleteFree(more) ensures n in Run(cfg, s, more).c.validations &&
      !Run(cfg, s, more).c.validations[n].Phase().Terminal() {
      StrandedNeverFinishes(cfg, steps, more, n);
    }
  }

  // In every state of every run without deletes: a validation can still reach its verdict exactly when no
  // child is stranded
  lemma FinishesIffNotStranded(cfg: Config, steps: seq<Step>, n: string)
    requires DeleteFree(steps) && n in Run(cfg, EMPTY_SYSTEM, steps).c.validations
    ensures var s := Run(cfg, EMPTY_SYSTEM, steps); CanEnd(cfg, s, n) <==> NoneStranded(cfg, s.c, n)
  {
    SafeHolds(cfg, steps);
    TenantsHold(cfg, steps);
    hide Run, SafeOk, TenantsOk, DeleteFree, NoneStranded, CanEnd;
    if NoneStranded(cfg, Run(cfg, EMPTY_SYSTEM, steps).c, n) {
      GoodCanEnd(cfg, Run(cfg, EMPTY_SYSTEM, steps), n);
    } else {
      StrandedCannotEnd(cfg, steps, n);
    }
  }
}
