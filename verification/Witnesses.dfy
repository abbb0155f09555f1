/** Runs from the initial state that reach what the theorems say can go wrong. */
module Witnesses {
  import opened Wrappers
  import opened Crds
  import opened Encodings
  import opened Security
  import opened Pipeline
  import opened PipelineHistory
  import opened PipelineBackward
  import opened ChildFindings
  import opened PipelineSafety
  import opened PipelineProgress
  import opened Gates
  import opened Remediation
  import opened Dispatcher

  // Every step leads from its state to the next one
  ghost predicate Path(cfg: Config, states: seq<System>, steps: seq<Step>) {
    |states| == |steps| + 1 && forall i | 0 <= i < |steps| :: states[i + 1] == Next(cfg, states[i], steps[i])
  }

  lemma {:induction false} PathIsRun(cfg: Config, states: seq<System>, steps: seq<Step>)
    requires Path(cfg, states, steps)
    ensures Run(cfg, states[0], steps) == states[|steps|]
  {
    hide Next;
    if steps != [] {
      PathIsRun(cfg, states[..|steps|], steps[..|steps| - 1]);
    }
  }

  // ---- One validation and its first reconcile ----

  const NEW_V := Validation("sha256:0", "auth", "u", 1, None)
  const NEWCOMER := CreateValidation("v", "sha256:0", "auth", "u", 1)
  const TENANT := "eph-v"
  const FIRST_STATUS := DEFAULT_STATUS.(phase := Some(Provisioning), tenantRef := Some(TENANT), startedAt := Some(0),
                                        observedGeneration := 1)
  const NEW_C := Cluster(map["v" := NEW_V], map[], map[], map[], [])
  const CREATED := EMPTY_SYSTEM.(c := NEW_C)

  function FirstFlight(done: nat): Flight {
    Flight(NEW_C, NEW_V, [], 0, PlanPending("v", NEW_V, 0), done)
  }

  const BEGUN := CREATED.(flights := map["v" := FirstFlight(0)])
  const TENANTED := BEGUN.(c := NEW_C.(tenants := map[TENANT := Tenant("v", None)]),
    flights := map["v" := FirstFlight(1)])
  const WRITTEN := TENANTED.(c := TENANTED.c.(validations := map["v" := NEW_V.(status := Some(FIRST_STATUS))]),
                             flights := map["v" := FirstFlight(2)])

  lemma TenantIsNamed()
    ensures TenantName("v") == TENANT
  {
  }

  lemma FirstPlan()
    ensures PlanPending("v", NEW_V, 0) == Plan([EnsureTenant(TENANT, Tenant("v", None))], Some(FIRST_STATUS))
    ensures Emitted(NEW_V, FIRST_STATUS) == [PhaseChanged("u", Pending, Provisioning)]
    ensures EffectCount(FirstFlight(0).plan, NEW_V) == 3
  {
    TenantIsNamed();
  }

  lemma Created(cfg: Config)
    ensures Next(cfg, EMPTY_SYSTEM, NEWCOMER) == CREATED
  {
  }

  lemma Begun(cfg: Config)
    ensures Next(cfg, CREATED, Begin("v", [], 0)) == BEGUN
  {
    FirstPlan();
    hide PlanPending;
  }

  lemma Tenanted(cfg: Config)
    ensures Next(cfg, BEGUN, Continue("v")) == TENANTED
  {
    FirstPlan();
    hide PlanPending, EffectCount, Emitted;
    assert BEGUN.flights["v"] == FirstFlight(0);
    assert BEGUN.flights["v" := FirstFlight(1)] == map["v" := FirstFlight(1)];
  }

  lemma Written(cfg: Config)
    ensures Next(cfg, TENANTED, Continue("v")) == WRITTEN
  {
    FirstPlan();
    hide PlanPending, EffectCount, Emitted;
    assert TENANTED.flights["v"] == FirstFlight(1);
    assert TENANTED.flights["v" := FirstFlight(2)] == map["v" := FirstFlight(2)];
  }

  lemma ToWritten(cfg: Config)
    ensures Run(cfg, EMPTY_SYSTEM, [NEWCOMER, Begin("v", [], 0), Continue("v"), Continue("v")]) == WRITTEN
  {
    var states := [EMPTY_SYSTEM, CREATED, BEGUN, TENANTED, WRITTEN];
    var steps := [NEWCOMER, Begin("v", [], 0), Continue("v"), Continue("v")];
    Created(cfg);
    Begun(cfg);
    Tenanted(cfg);
    Written(cfg);
    hide Next;
    assert Path(cfg, states, steps);
    PathIsRun(cfg, states, steps);
  }

  // A process that dies after the status write and before the event, and an event that is dropped while the
  // reconcile goes on: the validation is provisioning, and the stream has not heard of it
  lemma LostEventExample(cfg: Config, killed: bool)
    ensures var steps := [NEWCOMER, Begin("v", [], 0), Continue("v"), Continue("v")] +
            [if killed then Crash("v") else DropEvent("v")];
            var s := Run(cfg, EMPTY_SYSTEM, steps);
            && DeleteFree(steps) && "v" in s.lost && s.c.events == []
            && "v" in s.c.validations && s.c.validations["v"].Phase() == Provisioning
  {
    var steps := [NEWCOMER, Begin("v", [], 0), Continue("v"), Continue("v")];
    var last := if killed then Crash("v") else DropEvent("v");
    assert (steps + [last])[..4] == steps;
    ToWritten(cfg);
    FirstPlan();
    hide PlanPending;
    assert WRITTEN.flights["v"] == FirstFlight(2);
  }

  // ---- On to the first scan job, whose Kubernetes job expires unread ----

  const V1 := NEW_V.(status := Some(FIRST_STATUS))
  const ANNOUNCED := WRITTEN.(c := WRITTEN.c.(events := [PhaseChanged("u", Pending, Provisioning)]),
                              flights := map["v" := FirstFlight(3)])
  const RESTING := ANNOUNCED.(flights := map[])
  const READY_TENANT := TenantAfter(Tenant("v", None), NoTargetFed, 1)
  const READIED := RESTING.(c := RESTING.c.(tenants := map[TENANT := READY_TENANT]))
  const JOB := "sj-trivy-v"

  function SecondFlight(cfg: Config, done: nat): Flight {
    Flight(READIED.c, V1, [], 2, PlanProvisioning(cfg, READIED.c, "v", V1, 2), done)
  }

  function Second(cfg: Config, c: Cluster, done: nat): System {
    READIED.(c := c, flights := map["v" := SecondFlight(cfg, done)])
  }

  const NEW_JOB := NewScanJob("v", READY_TENANT, Trivy)
  const WITH_JOB := READIED.c.(scanJobs := map[JOB := NEW_JOB])
  const FORKED := READIED.c.(scanJobs := map[JOB := PatchJob(NEW_JOB, Forking)], jobs := map[JOB := false])
  const FINISHED := FORKED.(jobs := map[JOB := true])
  const EXPIRED := FORKED.(jobs := map[])

  lemma Announced(cfg: Config)
    ensures Next(cfg, WRITTEN, Continue("v")) == ANNOUNCED
  {
    FirstPlan();
    hide PlanPending, Emitted;
    assert WRITTEN.flights["v"] == FirstFlight(2);
    assert WRITTEN.flights["v" := FirstFlight(3)] == map["v" := FirstFlight(3)];
  }

  lemma Rested(cfg: Config)
    ensures Next(cfg, ANNOUNCED, Continue("v")) == RESTING
  {
    FirstPlan();
    hide PlanPending, Emitted;
    assert ANNOUNCED.flights["v"] == FirstFlight(3);
    assert ANNOUNCED.flights - {"v"} == map[];
  }

  lemma Readied(cfg: Config)
    ensures Next(cfg, RESTING, ReconcileTenant(TENANT, NoTargetFed, 1)) == READIED
  {
    hide TenantAfter;
    assert RESTING.c.tenants[TENANT := READY_TENANT] == map[TENANT := READY_TENANT];
  }

  lemma FirstJob(cfg: Config)
    ensures ScanJobName(Trivy, "v") == JOB
    ensures RequiredScanners(cfg) != [] && RequiredScanners(cfg)[0] == Trivy
    ensures JOB in Names(cfg, "v")
  {
    assert Trivy in SpecFor(cfg).requiredScanners;
    assert Names(cfg, "v")[0] == ScanJobName(RequiredScanners(cfg)[0], "v");
  }

  lemma SecondPlan(cfg: Config)
    ensures PlanOf(cfg, READIED.c, "v", [], 2) == SecondFlight(cfg, 0).plan
    ensures SecondFlight(cfg, 0).plan.creates != []
    ensures SecondFlight(cfg, 0).plan.creates[0] == EnsureScanJob(JOB, NEW_JOB)
  {
    FirstJob(cfg);
    TenantIsNamed();
    hide RequiredScanners, ScanJobName, FreshSummaries, NewScanJob, Names;
    assert READY_TENANT.Phase() == Ready;
  }

  lemma SecondBegun(cfg: Config)
    ensures Next(cfg, READIED, Begin("v", [], 2)) == Second(cfg, READIED.c, 0)
  {
    SecondPlan(cfg);
    hide PlanOf, PlanProvisioning, TenantAfter;
    assert READIED.flights["v" := SecondFlight(cfg, 0)] == map["v" := SecondFlight(cfg, 0)];
  }

  lemma JobCreated(cfg: Config)
    ensures Next(cfg, Second(cfg, READIED.c, 0), Continue("v")) == Second(cfg, WITH_JOB, 1)
  {
    SecondPlan(cfg);
    hide PlanProvisioning, Emitted, TenantAfter, NewScanJob;
    var s := Second(cfg, READIED.c, 0);
    assert s.flights["v"] == SecondFlight(cfg, 0);
    assert s.flights["v" := SecondFlight(cfg, 1)] == map["v" := SecondFlight(cfg, 1)];
  }

  lemma JobForked(cfg: Config)
    ensures Next(cfg, Second(cfg, WITH_JOB, 1), ReconcileScanJob(JOB, [], false)) == Second(cfg, FORKED, 1)
  {
    hide PlanProvisioning, TenantAfter, SecondFlight;
    assert WITH_JOB.scanJobs[JOB := PatchJob(NEW_JOB, Forking)] == FORKED.scanJobs;
  }

  lemma JobFinished(cfg: Config)
    ensures Next(cfg, Second(cfg, FORKED, 1), FinishJob(JOB)) == Second(cfg, FINISHED, 1)
    ensures Next(cfg, Second(cfg, FINISHED, 1), ExpireJob(JOB)) == Second(cfg, EXPIRED, 1)
  {
    hide PlanProvisioning, TenantAfter, SecondFlight;
    assert FORKED.jobs[JOB := true] == FINISHED.jobs && FINISHED.jobs - {JOB} == EXPIRED.jobs;
  }

  const STRANDING: seq<Step> :=
    [Continue("v"), Continue("v"), ReconcileTenant(TENANT, NoTargetFed, 1), Begin("v", [], 2), Continue("v"),
     ReconcileScanJob(JOB, [], false), FinishJob(JOB), ExpireJob(JOB)]

  lemma {:induction false} RunJoin(cfg: Config, s: System, a: seq<Step>, b: seq<Step>)
    ensures Run(cfg, s, a + b) == Run(cfg, Run(cfg, s, a), b)
  {
    hide Next;
    if b == [] {
      assert a + b == a;
    } else {
      assert (a + b)[..|a + b| - 1] == a + b[..|b| - 1];
      RunJoin(cfg, s, a, b[..|b| - 1]);
    }
  }

  const TO_JOB: seq<Step> := STRANDING[..5]
  const FROM_JOB: seq<Step> := STRANDING[5..]

  lemma ToJob(cfg: Config)
    ensures Run(cfg, WRITTEN, TO_JOB) == Second(cfg, WITH_JOB, 1)
  {
    var states := [WRITTEN, ANNOUNCED, RESTING, READIED, Second(cfg, READIED.c, 0), Second(cfg, WITH_JOB, 1)];
    Announced(cfg);
    Rested(cfg);
    Readied(cfg);
    SecondBegun(cfg);
    JobCreated(cfg);
    hide Next, Second;
    assert Path(cfg, states, TO_JOB);
    PathIsRun(cfg, states, TO_JOB);
  }

  lemma FromJob(cfg: Config)
    ensures Run(cfg, Second(cfg, WITH_JOB, 1), FROM_JOB) == Second(cfg, EXPIRED, 1)
  {
    var states := [Second(cfg, WITH_JOB, 1), Second(cfg, FORKED, 1), Second(cfg, FINISHED, 1), Second(cfg, EXPIRED, 1)];
    JobForked(cfg);
    JobFinished(cfg);
    hide Next, Second;
    assert Path(cfg, states, FROM_JOB);
    PathIsRun(cfg, states, FROM_JOB);
  }

  lemma ToStranded(cfg: Config)
    ensures Run(cfg, WRITTEN, STRANDING) == Second(cfg, EXPIRED, 1)
  {
    assert STRANDING == TO_JOB + FROM_JOB;
    hide Run, Second;
    RunJoin(cfg, WRITTEN, TO_JOB, FROM_JOB);
    ToJob(cfg);
    FromJob(cfg);
  }

  // Whatever the configuration: twelve steps from the initial state to a stranded child, and so to a validation
  // that can never finish
  lemma StrandedExample(cfg: Config)
    ensures var steps := [NEWCOMER, Begin("v", [], 0), Continue("v"), Continue("v")] + STRANDING;
            var s := Run(cfg, EMPTY_SYSTEM, steps);
            DeleteFree(steps) && "v" in s.c.validations && !NoneStranded(cfg, s.c, "v") && !CanEnd(cfg, s, "v")
  {
    var first := [NEWCOMER, Begin("v", [], 0), Continue("v"), Continue("v")];
    RunJoin(cfg, EMPTY_SYSTEM, first, STRANDING);
    ToWritten(cfg);
    ToStranded(cfg);
    FirstJob(cfg);
    hide Run, RequiredScanners, Names, PlanProvisioning, TenantAfter, NewScanJob, SecondFlight, CanEnd;
    assert Stranded(Second(cfg, EXPIRED, 1).c, JOB);
    FinishesIffNotStranded(cfg, first + STRANDING, "v");
  }

  // ---- A target that is withdrawn while its service was awaited ----

  const WAITING_TENANT := TenantAfter(Tenant("v", None), Waiting("http://old"), 3)
  const UNTARGETED := TenantAfter(WAITING_TENANT, NoTargetFed, 7)

  // The tenant is ready with no pods, under the old URL, and ZAP would be aimed at it
  lemma OldUrlExample(cfg: Config)
    ensures var steps := [NEWCOMER, Begin("v", [], 0), Continue("v"), ReconcileTenant(TENANT, Waiting("http://old"), 3),
                          ReconcileTenant(TENANT, NoTargetFed, 7)];
            var s := Run(cfg, EMPTY_SYSTEM, steps);
            && DeleteFree(steps) && TENANT in s.c.tenants
            && var t := s.c.tenants[TENANT];
               && t.Phase() == Ready && t.status.value.podsReady == 0 && t.status.value.ingressUrl == Some("http://old")
               && NewScanJob("v", t, Zap).targetTenantUrl == Some("http://old")
  {
    var steps := [NEWCOMER, Begin("v", [], 0), Continue("v"), ReconcileTenant(TENANT, Waiting("http://old"), 3),
                  ReconcileTenant(TENANT, NoTargetFed, 7)];
    var waiting := TENANTED.(c := TENANTED.c.(tenants := map[TENANT := WAITING_TENANT]));
    var untargeted := TENANTED.(c := TENANTED.c.(tenants := map[TENANT := UNTARGETED]));
    Created(cfg);
    Begun(cfg);
    Tenanted(cfg);
    TenantSteps(cfg);
    hide Next;
    var states := [EMPTY_SYSTEM, CREATED, BEGUN, TENANTED, waiting, untargeted];
    assert Path(cfg, states, steps);
    PathIsRun(cfg, states, steps);
  }

  lemma TenantSteps(cfg: Config)
    ensures var waiting := TENANTED.(c := TENANTED.c.(tenants := map[TENANT := WAITING_TENANT]));
            && Next(cfg, TENANTED, ReconcileTenant(TENANT, Waiting("http://old"), 3)) == waiting
            && Next(cfg, waiting, ReconcileTenant(TENANT, NoTargetFed, 7)) ==
                 TENANTED.(c := TENANTED.c.(tenants := map[TENANT := UNTARGETED]))
  {
    hide TenantAfter, FirstFlight;
    assert TENANTED.c.tenants[TENANT := WAITING_TENANT] == map[TENANT := WAITING_TENANT];
  }

  // ---- A decision that two processes execute ----

  lemma CreatedIsGood(cfg: Config)
    ensures Good(cfg, CREATED, "v") && Run(cfg, EMPTY_SYSTEM, [NEWCOMER]) == CREATED
  {
    Created(cfg);
    SafeHolds(cfg, [NEWCOMER]);
    TenantsHold(cfg, [NEWCOMER]);
    OneStep(cfg, NEWCOMER);
    hide SafeOk, TenantsOk, Next, Run, Names;
  }

  lemma OneStep(cfg: Config, step: Step)
    ensures Run(cfg, EMPTY_SYSTEM, [step]) == Next(cfg, EMPTY_SYSTEM, step)
  {
    hide Next;
    RunAppend(cfg, EMPTY_SYSTEM, [], step);
    assert [] + [step] == [step];
  }

  lemma Delivered(cfg: Config, s: System, n: string)
    requires n in s.c.validations
    ensures Next(cfg, s, Deliver(n, s.c.validations[n])).c == s.c
    ensures Next(cfg, s, Deliver(n, s.c.validations[n])).process == s.process
    ensures Next(cfg, s, RestartDispatcher).c == s.c && Next(cfg, s, RestartDispatcher).process == s.process + 1
  {
  }

  // With remediation on: from the initial state a run without deletes reaches a decision, and delivering it before
  // and after a restart of the dispatcher has its action executed twice
  lemma ExecutedTwiceExample(cfg: Config) returns (steps: seq<Step>)
    requires !cfg.scanOnly
    ensures DeleteFree(steps) && |OfRun(Run(cfg, EMPTY_SYSTEM, steps).dispatches, "u")| >= 2
  {
    hide Run, Good, Rank, Served, OfRun, DeleteFree, NEWCOMER, CREATED;
    CreatedIsGood(cfg);
    var more := CanFinish(cfg, CREATED, "v");
    var done := [NEWCOMER] + more;
    RunJoin(cfg, EMPTY_SYSTEM, [NEWCOMER], more);
    DecidedWithAction(cfg, done, "v");
    SameUid(cfg, more);
    var v := Run(cfg, EMPTY_SYSTEM, done).c.validations["v"];
    steps := done + [Deliver("v", v)] + [RestartDispatcher] + [Deliver("v", v)];
    NothingDeleted(more, v);
    ServedTwice(cfg, done, "v", "u");
    ExecutedOncePerServedProcess(cfg, steps, "u");
  }

  lemma NothingDeleted(more: seq<Step>, v: Validation)
    requires DeleteFree(more)
    ensures DeleteFree([NEWCOMER] + more + [Deliver("v", v)] + [RestartDispatcher] + [Deliver("v", v)])
  {
  }

  lemma SameUid(cfg: Config, more: seq<Step>)
    requires "v" in Run(cfg, CREATED, more).c.validations
    ensures Run(cfg, CREATED, more).c.validations["v"].uid == "u"
  {
    HistoryHolds(cfg, [NEWCOMER]);
    OneStep(cfg, NEWCOMER);
    Created(cfg);
    hide HistoryOk, Run, Next;
    RunGrows(cfg, CREATED, more, "v");
  }

  lemma DecidedWithAction(cfg: Config, steps: seq<Step>, n: string)
    requires !cfg.scanOnly && Good(cfg, Run(cfg, EMPTY_SYSTEM, steps), n) &&
             Rank(Run(cfg, EMPTY_SYSTEM, steps).c, n) == 6
    ensures n in Run(cfg, EMPTY_SYSTEM, steps).c.validations
    ensures var gate := Run(cfg, EMPTY_SYSTEM, steps).c.validations[n].Status().gateDecision;
            gate.Some? && gate.value.action.Some?
  {
    GatesHold(cfg, steps);
    var s := Run(cfg, EMPTY_SYSTEM, steps);
    EndHasVerdict(cfg, s, n);
    hide Run, GateOf, Good;
    assert Gated(cfg, s.c.validations[n]);
    var v, children, now :| s.c.validations[n].Status().gateDecision.value == GateOf(cfg, v, children, now);
    GateActs(cfg, v, children, now);
  }

  lemma ServedTwice(cfg: Config, done: seq<Step>, n: string, uid: string)
    requires var s := Run(cfg, EMPTY_SYSTEM, done);
             n in s.c.validations && s.c.validations[n].uid == uid &&
             var gate := s.c.validations[n].Status().gateDecision;
             gate.Some? && gate.value.action.Some?
    ensures var v := Run(cfg, EMPTY_SYSTEM, done).c.validations[n];
            |Served(cfg, done + [Deliver(n, v)] + [RestartDispatcher] + [Deliver(n, v)], uid)| >= 2
  {
    hide Next, Run, Served;
    var s := Run(cfg, EMPTY_SYSTEM, done);
    var v := s.c.validations[n];
    var a := done + [Deliver(n, v)];
    var b := a + [RestartDispatcher];
    var t, u := Run(cfg, EMPTY_SYSTEM, a), Run(cfg, EMPTY_SYSTEM, b);
    RunAppend(cfg, EMPTY_SYSTEM, done, Deliver(n, v));
    RunAppend(cfg, EMPTY_SYSTEM, a, RestartDispatcher);
    Delivered(cfg, s, n);
    Delivered(cfg, t, n);
    assert u.c == s.c && u.process == s.process + 1;
    ServedAppend(cfg, done, Deliver(n, v), uid);
    ServedAppend(cfg, a, RestartDispatcher, uid);
    ServedAppend(cfg, b, Deliver(n, v), uid);
    SubsetSize({s.process, u.process}, Served(cfg, b + [Deliver(n, v)], uid));
  }

  lemma ServedAppend(cfg: Config, steps: seq<Step>, step: Step, uid: string)
    ensures var s := Run(cfg, EMPTY_SYSTEM, steps);
            Served(cfg, steps + [step], uid) ==
            Served(cfg, steps, uid) + if Serves(s, step, uid) then {s.process} else {}
  {
    hide Run, Serves;
    assert (steps + [step])[..|steps|] == steps;
  }

  lemma {:induction false} SubsetSize<T>(s: set<T>, t: set<T>)
    requires s <= t
    ensures |s| <= |t|
  {
    if s != {} {
      var x :| x in s;
      SubsetSize(s - {x}, t - {x});
    }
  }
}
