/** The controllers as they run: methods that read and write the stored objects call by call, and may
    die between any two calls. */
module Controllers {
  import opened Wrappers
  import opened Crds
  import opened Encodings
  import opened Evidence
  import opened Actions
  import opened Security
  import opened Pipeline
  import opened PipelineHistory
  import opened ChildFindings

  // What a handler comes back with: nothing when one of its calls failed, else the status to write, if any
  datatype Handled = CallFailed | Handled(next: Option<ValidationStatus>)

  function Min(a: nat, b: nat): nat { if a < b then a else b }

  // Names of all scan jobs, in the order the API server returned them
  predicate ListsAll(c: Cluster, order: seq<string>) {
    && (forall i, j | 0 <= i < j < |order| :: order[i] != order[j])
    && (forall k | k in order :: k in c.scanJobs)
    && (forall k | k in c.scanJobs :: k in order)
  }

  function ChildrenIn(c: Cluster, n: string, order: seq<string>): seq<string> {
    if order == [] then []
    else
      var last := |order| - 1;
      ChildrenIn(c, n, order[..last]) +
      if order[last] in c.scanJobs && c.scanJobs[order[last]].parent == n then [order[last]] else []
  }

  lemma {:induction false} ChildrenInMembers(c: Cluster, n: string, order: seq<string>)
    requires forall i, j | 0 <= i < j < |order| :: order[i] != order[j]
    ensures var r := ChildrenIn(c, n, order);
            && (forall k :: k in r <==> k in order && k in c.scanJobs && c.scanJobs[k].parent == n)
            && forall i, j | 0 <= i < j < |r| :: r[i] != r[j]
  {
    if order != [] {
      var last := |order| - 1;
      ChildrenInMembers(c, n, order[..last]);
      assert order == order[..last] + [order[last]];
      assert order[last] !in order[..last];
    }
  }

  lemma FilteredListing(c: Cluster, n: string, order: seq<string>)
    requires ListsAll(c, order)
    ensures Lists(c, n, ChildrenIn(c, n, order))
  {
    ChildrenInMembers(c, n, order);
  }

  // A handler that had `had` calls left created as many children of its plan as they allowed
  ghost predicate Ran(
    before: Cluster, after: Cluster, had: nat, has: nat, n: string, p: Plan, v: Validation, h: Handled,
      delivered: nat -> bool)
  {
    var k := Min(had, |p.creates|);
    && after == ApplyEffects(before, n, p, v, k, delivered)
    && has == had - k
    && h == if k == |p.creates| then Handled(p.next) else CallFailed
  }

  // What is new is a job of a scanner that the deployment flags have run, as that scanner's jobs are made
  ghost predicate OnlyJobsThatRun(cfg: Config, n: string, tenant: Tenant, before: Cluster, after: Cluster) {
    forall k | k in after.scanJobs && k !in before.scanJobs ::
      exists s :: Runs(cfg, s) && k == ScanJobName(s, n) && after.scanJobs[k] == NewScanJob(n, tenant, s)
  }

  lemma JobsOfTheFlags(cfg: Config, c: Cluster, n: string, tenant: Tenant, v: Validation, p: Plan,
      k: nat, delivered: nat -> bool)
    requires p.creates == CreateScanJobs(n, tenant, RequiredScanners(cfg)) && k <= |p.creates|
    ensures var d := ApplyEffects(c, n, p, v, k, delivered);
            && (k == |p.creates| ==> forall s | Runs(cfg, s) :: ScanJobName(s, n) in d.scanJobs)
            && OnlyJobsThatRun(cfg, n, tenant, c, d)
  {
    hide RequiredScanners, ScanJobName, Runs, NewScanJob;
    CreatedInOrder(cfg, c, n, tenant, v, p, k, delivered);
    var scanners, d := RequiredScanners(cfg), ApplyEffects(c, n, p, v, k, delivered);
    forall s | Runs(cfg, s) && k == |p.creates| ensures ScanJobName(s, n) in d.scanJobs {
      RequiredIffRuns(cfg, s);
      var i :| 0 <= i < |scanners| && scanners[i] == s;
    }
  }

  lemma OneMoreCreated(cfg: Config, c: Cluster, b: Cluster, n: string, tenant: Tenant, s: Scanner)
    requires OnlyJobsThatRun(cfg, n, tenant, c, b) && Runs(cfg, s)
    ensures var d := ApplyEffect(b, n, EnsureScanJob(ScanJobName(s, n), NewScanJob(n, tenant, s)));
            && OnlyJobsThatRun(cfg, n, tenant, c, d) && ScanJobName(s, n) in d.scanJobs
            && forall k | k in b.scanJobs :: k in d.scanJobs
  {
    hide ScanJobName, Runs, NewScanJob;
  }

  lemma NextCreated(cfg: Config, c: Cluster, n: string, tenant: Tenant, v: Validation, p: Plan, k: nat,
      delivered: nat -> bool)
    requires p.creates == CreateScanJobs(n, tenant, RequiredScanners(cfg)) && 0 < k <= |p.creates|
    ensures NewScanJob(n, tenant, RequiredScanners(cfg)[k - 1]).parent == n
    ensures var s := RequiredScanners(cfg)[k - 1];
            ApplyEffects(c, n, p, v, k, delivered) ==
            ApplyEffect(ApplyEffects(c, n, p, v, k - 1, delivered), n,
                        EnsureScanJob(ScanJobName(s, n), NewScanJob(n, tenant, s)))
  {
    hide RequiredScanners, ScanJobName, ApplyEffect;
  }

  lemma {:induction false} CreatedInOrder(cfg: Config, c: Cluster, n: string, tenant: Tenant, v: Validation, p: Plan,
      k: nat, delivered: nat -> bool)
    requires p.creates == CreateScanJobs(n, tenant, RequiredScanners(cfg)) && k <= |p.creates|
    ensures var d := ApplyEffects(c, n, p, v, k, delivered);
            && (forall j | 0 <= j < k :: ScanJobName(RequiredScanners(cfg)[j], n) in d.scanJobs)
            && OnlyJobsThatRun(cfg, n, tenant, c, d)
  {
    hide RequiredScanners, ScanJobName, Runs, NewScanJob, ApplyEffect, ApplyEffects, OnlyJobsThatRun, CreateScanJobs;
    if k == 0 {
      NothingCreated(cfg, c, n, tenant, v, p, delivered);
    } else {
      CreatedInOrder(cfg, c, n, tenant, v, p, k - 1, delivered);
      var scanners, b := RequiredScanners(cfg), ApplyEffects(c, n, p, v, k - 1, delivered);
      AsManyAsScanners(cfg, n, tenant);
      RequiredIffRuns(cfg, scanners[k - 1]);
      NextCreated(cfg, c, n, tenant, v, p, k, delivered);
      OneMoreCreated(cfg, c, b, n, tenant, scanners[k - 1]);
    }
  }

  lemma AsManyAsScanners(cfg: Config, n: string, tenant: Tenant)
    ensures |CreateScanJobs(n, tenant, RequiredScanners(cfg))| == |RequiredScanners(cfg)|
  {
    hide RequiredScanners;
  }

  lemma NothingCreated(cfg: Config, c: Cluster, n: string, tenant: Tenant, v: Validation, p: Plan,
      delivered: nat -> bool)
    ensures OnlyJobsThatRun(cfg, n, tenant, c, ApplyEffects(c, n, p, v, 0, delivered))
  {
  }

  class ValidationController {
    const cfg: Config
    var c: Cluster     // what the API server stores
    var calls: nat     // calls left before the process dies

    constructor (cfg: Config, c: Cluster, calls: nat)
      ensures this.cfg == cfg && this.c == c && this.calls == calls
    {
      this.cfg, this.c, this.calls := cfg, c, calls;
    }

    // Look up the tenant and create it when it is not there
    method EnsureTenantExists(name: string, tenant: Tenant) returns (ok: bool)
      modifies this
      ensures ok == (old(calls) > 0) && calls == old(calls) - (if ok then 1 else 0)
      ensures c == if ok then ApplyEffect(old(c), tenant.parent, EnsureTenant(name, tenant)) else old(c)
    {
      if calls == 0 { return false; }
      calls := calls - 1;
      if name !in c.tenants {
        c := c.(tenants := c.tenants[name := tenant]);
      }
      return true;
    }

    method EnsureScanJobExists(name: string, job: ScanJob) returns (ok: bool)
      modifies this
      ensures ok == (old(calls) > 0) && calls == old(calls) - (if ok then 1 else 0)
      ensures c == if ok then ApplyEffect(old(c), job.parent, EnsureScanJob(name, job)) else old(c)
    {
      if calls == 0 { return false; }
      calls := calls - 1;
      if name !in c.scanJobs {
        c := c.(scanJobs := c.scanJobs[name := job]);
      }
      return true;
    }

    method ListChildren(n: string, order: seq<string>) returns (listing: seq<string>)
      requires ListsAll(c, order)
      ensures listing == ChildrenIn(c, n, order) && Lists(c, n, listing)
    {
      listing := [];
      for i := 0 to |order|
        invariant listing == ChildrenIn(c, n, order[..i])
      {
        assert order[..i + 1][..i] == order[..i];
        if c.scanJobs[order[i]].parent == n {
          listing := listing + [order[i]];
        }
      }
      assert order[..|order|] == order;
      FilteredListing(c, n, order);
    }

    method HandlePending(n: string, v: Validation, now: Time, ghost delivered: nat -> bool) returns (h: Handled)
      modifies this
      ensures Ran(old(c), c, old(calls), calls, n, PlanPending(n, v, now), v, h, delivered)
    {
      ghost var p := PlanPending(n, v, now);
      var tenantName := TenantName(n);
      var ok := EnsureTenantExists(tenantName, Tenant(n, None));
      if !ok { return CallFailed; }
      assert c == ApplyEffects(old(c), n, p, v, 1, delivered) by { assert EffectAt(p, v, 0) == p.creates[0]; }
      var next := v.Status();
      next := next.(phase := Some(Provisioning));
      next := next.(tenantRef := Some(tenantName));
      next := next.(startedAt := next.startedAt.Or(Some(now)));
      next := next.(observedGeneration := v.generation);
      return Handled(Some(next));
    }

    // One scan job per required scanner; p is the plan whose creations these are
    method EmitScanJobs(n: string, tenant: Tenant, v: Validation, ghost p: Plan, ghost delivered: nat -> bool)
      returns (ok: bool, summaries: seq<Summary>)
      requires p.creates == CreateScanJobs(n, tenant, RequiredScanners(cfg))
      modifies this
      ensures var k := Min(old(calls), |p.creates|);
              && c == ApplyEffects(old(c), n, p, v, k, delivered) && calls == old(calls) - k
              && ok == (k == |p.creates|)
      ensures ok ==> summaries == FreshSummaries(n, RequiredScanners(cfg))
      ensures ok ==> forall s | Runs(cfg, s) :: ScanJobName(s, n) in c.scanJobs
      ensures OnlyJobsThatRun(cfg, n, tenant, old(c), c)
    {
      hide RequiredScanners, ScanJobName, Runs, NewScanJob, OnlyJobsThatRun, ApplyEffect, EffectAt;
      JobsOfTheFlags(cfg, c, n, tenant, v, p, Min(calls, |p.creates|), delivered);
      var scanners := RequiredScanners(cfg);
      summaries := [];
      for i := 0 to |scanners|
        invariant calls == old(calls) - i
        invariant c == ApplyEffects(old(c), n, p, v, i, delivered)
        invariant summaries == FreshSummaries(n, scanners)[..i]
      {
        var name := ScanJobName(scanners[i], n);
        var created := EnsureScanJobExists(name, NewScanJob(n, tenant, scanners[i]));
        if !created { return false, []; }
        NextCreated(cfg, old(c), n, tenant, v, p, i + 1, delivered);
        summaries := summaries + [Summary(name, scanners[i], JobPending, 0)];
      }
      assert summaries == FreshSummaries(n, scanners);
      ok := true;
    }

    method HandleProvisioning(n: string, v: Validation, now: Time, ghost delivered: nat -> bool) returns (h: Handled)
      modifies this
      ensures Ran(old(c), c, old(calls), calls, n, PlanProvisioning(cfg, old(c), n, v, now), v, h, delivered)
    {
      hide RequiredScanners, ScanJobName, CreateScanJobs, FreshSummaries, PlanPending, ApplyEffect, EffectAt;
      var tenantName := v.Status().tenantRef.GetOr(TenantName(n));
      if tenantName !in c.tenants {
        h := HandlePending(n, v, now, delivered);
        return;
      }
      var tenant := c.tenants[tenantName];
      if tenant.Phase() != Ready && tenant.Phase() != TenantScanning {
        return Handled(None);
      }
      var ok, summaries := EmitScanJobs(n, tenant, v, PlanProvisioning(cfg, c, n, v, now), delivered);
      if !ok { return CallFailed; }
      var next := v.Status();
      next := next.(phase := Some(Scanning));
      next := next.(scanJobs := summaries);
      next := next.(observedGeneration := v.generation);
      return Handled(Some(next));
    }

    method HandleScanning(n: string, v: Validation, order: seq<string>, now: Time, ghost delivered: nat -> bool)
      returns (h: Handled)
      requires ListsAll(c, order)
      modifies this
      ensures Lists(old(c), n, ChildrenIn(old(c), n, order))
      ensures var p := PlanScanning(cfg, old(c), n, v, ChildrenIn(old(c), n, order), now);
              Ran(old(c), c, old(calls), calls, n, p, v, h, delivered)
    {
      var children := ListChildren(n, order);
      if children == [] {
        h := HandleProvisioning(n, v, now, delivered);
        return;
      }
      var next := v.Status();
      next := next.(scanJobs := Summaries(c, children));
      if forall k | k in children :: TerminalJob(c.scanJobs[k]) {
        next := next.(phase := Some(Aggregating));
      }
      next := next.(observedGeneration := v.generation);
      return Handled(Some(next));
    }

    method HandleAggregating(n: string, v: Validation, order: seq<string>) returns (h: Handled)
      requires ListsAll(c, order)
      ensures Lists(c, n, ChildrenIn(c, n, order))
      ensures h == Handled(PlanAggregating(cfg, c, v, ChildrenIn(c, n, order)).next)
    {
      var children := ListChildren(n, order);
      var canonical := CanonicalFindings(Children(c, children));
      var next := v.Status();
      next := next.(phase := Some(Attesting));
      next := next.(evidenceHash := Some(cfg.blake3(canonical)));
      next := next.(observedGeneration := v.generation);
      return Handled(Some(next));
    }

    method HandleAttesting(v: Validation) returns (h: Handled)
      ensures h == Handled(PlanAttesting(v).next)
    {
      var next := v.Status();
      next := next.(phase := Some(Gating));
      next := next.(cartorioState := Some(ArtifactPending));
      next := next.(observedGeneration := v.generation);
      return Handled(Some(next));
    }

    method BuildSecuritySnapshot(v: Validation, children: seq<ScanJob>, now: Time) returns (snapshot: SecuritySnapshot)
      ensures snapshot == Snapshot(v, children, now)
    {
      var findings := [];
      var reported := {};
      for i := 0 to |children|
        invariant findings == AllFindings(children[..i]) && reported == Reported(children[..i])
      {
        assert children[..i + 1] == children[..i] + [children[i]];
        AllFindingsAppend(children[..i], children[i]);
        reported := reported + {children[i].scanner};
        findings := findings + children[i].Findings();
      }
      assert children[..|children|] == children;
      return SecuritySnapshot([DigestObservation(v.imageDigest, v.service, ArtifactPending, findings, {}, reported)],
        now);
    }

    // The verdict and the action a decision stands for
    method ReadDecision(severity: Severity, decision: Decision) returns (verdict: Verdict, action: Option<TypedAction>)
      ensures verdict == VerdictOf(severity, decision) && action == ActionOf(cfg, decision)
    {
      verdict, action := VerdictPassed, None;
      match decision {
        case NoAction =>
        case AutoCorrect(a) =>
          verdict, action := if severity == Critical then VerdictFailed else VerdictPassed, Some(a);
        case RequireApproval(a) =>
          verdict, action := VerdictQuarantined, Some(a);
        case Alert =>
        case SuppressedAfterRepeatedFailure(_) =>
          verdict := VerdictQuarantined;
      }
      if cfg.scanOnly {
        action := None;
      }
    }

    method HandleGating(n: string, v: Validation, order: seq<string>, now: Time) returns (h: Handled)
      requires ListsAll(c, order)
      ensures Lists(c, n, ChildrenIn(c, n, order))
      ensures h == Handled(PlanGating(cfg, c, v, ChildrenIn(c, n, order), now).next)
    {
      hide DiffOf, Classify, DecideOf, SpecFor, ChildrenIn, ListsAll, VerdictOf, ActionOf, Snapshot;
      var children := ListChildren(n, order);
      var spec := SpecFor(cfg);
      var snapshot := BuildSecuritySnapshot(v, Children(c, children), now);
      var drift := Diff(spec, snapshot);
      var severity := Classify(drift);
      var decision := Decide(spec, severity, drift);
      var verdict, action := ReadDecision(severity, decision);
      var next := v.Status();
      next := next.(gateDecision := Some(GateDecision(severity, verdict, action, now)));
      next := next.(phase := Some(PhaseFor(verdict)));
      next := next.(terminalAt := Some(now));
      next := next.(observedGeneration := v.generation);
      return Handled(Some(next));
    }

    // ---- The whole reconcile ----

    // The publisher gives no answer: an event that does not arrive is dropped, and the caller goes on
    method Publish(n: string, event: Event, arrives: bool) returns (alive: bool)
      modifies this
      ensures alive == (old(calls) > 0) && calls == old(calls) - (if alive then 1 else 0)
      ensures c == if alive && arrives then ApplyEffect(old(c), n, Effect.Publish(event)) else old(c)
    {
      if calls == 0 { return false; }
      calls := calls - 1;
      if arrives {
        c := c.(events := c.events + [event]);
      }
      return true;
    }

    method Patch(n: string, status: ValidationStatus) returns (ok: bool)
      modifies this
      ensures ok == (old(calls) > 0) && calls == old(calls) - (if ok then 1 else 0)
      ensures c == if ok then ApplyEffect(old(c), n, PatchStatus(status)) else old(c)
    {
      if calls == 0 { return false; }
      calls := calls - 1;
      if n in c.validations {
        c := c.(validations := c.validations[n := c.validations[n].(status := Some(status))]);
      }
      return true;
    }

    // Publishes what changed between the object as it was read and the status just written;
    // p is the plan, whose creations and patch are done in the state `before` led to
    method EmitPostPatch(n: string, v: Validation, next: ValidationStatus, delivered: nat -> bool,
                         ghost p: Plan, ghost before: Cluster, offset: nat)
      returns (alive: bool)
      requires p.next == Some(next) && offset == |p.creates| + 1
      requires c == ApplyEffects(before, n, p, v, offset, delivered)
      modifies this
      ensures var k := Min(old(calls), |Emitted(v, next)|);
              && c == ApplyEffects(before, n, p, v, offset + k, delivered) && calls == old(calls) - k
              && alive == (k == |Emitted(v, next)|)
    {
      ghost var all := Emitted(v, next);
      var sent := 0;
      alive := true;
      if next.phase.Some? && next.phase.value != v.Phase() {
        var event := PhaseChanged(v.uid, v.Phase(), next.phase.value);
        assert all[0] == event && EffectAt(p, v, offset) == Effect.Publish(event);
        alive := Publish(n, event, delivered(offset));
        if !alive { return; }
        sent := 1;
      }
      if v.Status().gateDecision.None? {
        if next.gateDecision.Some? {
          var gate := next.gateDecision.value;
          var event := DecisionEmitted(v.uid, gate.severity, gate.verdict);
          assert all[sent] == event && EffectAt(p, v, offset + sent) == Effect.Publish(event);
          alive := Publish(n, event, delivered(offset + sent));
        }
      }
    }

    method Handle(n: string, v: Validation, order: seq<string>, now: Time, ghost delivered: nat -> bool)
        returns (h: Handled)
      requires ListsAll(c, order) && n in c.validations && c.validations[n] == v
      modifies this
      ensures Lists(old(c), n, ChildrenIn(old(c), n, order))
      ensures var p := PlanOf(cfg, old(c), n, ChildrenIn(old(c), n, order), now);
              Ran(old(c), c, old(calls), calls, n, p, v, h, delivered)
    {
      hide PlanPending, PlanProvisioning, PlanScanning, PlanGating, ChildrenIn, EffectAt, ApplyEffect, ListsAll;
      FilteredListing(c, n, order);
      match v.Phase() {
        case Pending => h := HandlePending(n, v, now, delivered);
        case Provisioning => h := HandleProvisioning(n, v, now, delivered);
        case Scanning => h := HandleScanning(n, v, order, now, delivered);
        case Aggregating => h := HandleAggregating(n, v, order);
        case Attesting => h := HandleAttesting(v);
        case Gating =>
          GatingCreatesNothing(cfg, c, v, ChildrenIn(c, n, order), now);
          h := HandleGating(n, v, order, now);
        case _ => h := Handled(None);
      }
    }

    // Whatever the phase, wherever the process dies and whichever events are dropped: a prefix of the plan's
    // effects, in order, less the events that did not arrive
    method Reconcile(n: string, order: seq<string>, now: Time, delivered: nat -> bool) returns (ok: bool)
      requires ListsAll(c, order) && n in c.validations
      modifies this
      ensures Lists(old(c), n, ChildrenIn(old(c), n, order))
      ensures var v := old(c).validations[n];
              var p := PlanOf(cfg, old(c), n, ChildrenIn(old(c), n, order), now);
              var k := Min(old(calls), EffectCount(p, v));
              && c == ApplyEffects(old(c), n, p, v, k, delivered) && calls == old(calls) - k
              && ok == (k == EffectCount(p, v))
    {
      hide PlanOf, ChildrenIn, ApplyEffect, Emitted, ListsAll;
      var v := c.validations[n];
      FilteredListing(c, n, order);
      ghost var p := PlanOf(cfg, c, n, ChildrenIn(c, n, order), now);
      var had := calls;
      var h := Handle(n, v, order, now, delivered);
      if h.CallFailed? { return false; }
      if h.next.None? { return true; }
      var created := had - calls;
      assert created == |p.creates| && EffectAt(p, v, created) == PatchStatus(h.next.value);
      ok := Patch(n, h.next.value);
      if !ok { return; }
      ok := EmitPostPatch(n, v, h.next.value, delivered, p, old(c), created + 1);
    }
  }

  lemma GatingCreatesNothing(cfg: Config, c: Cluster, v: Validation, listing: seq<string>, now: Time)
    requires forall k | k in listing :: k in c.scanJobs
    ensures PlanGating(cfg, c, v, listing, now).creates == [] && PlanGating(cfg, c, v, listing, now).next.Some?
  {
    hide GateOf;
  }

  // ---- A reconcile is a run of the system ----

  // The steps of the first k effects
  function EffectSteps(n: string, p: Plan, v: Validation, k: nat, delivered: nat -> bool): seq<Step>
    requires k <= EffectCount(p, v)
  {
    if k == 0 then []
    else
      EffectSteps(n, p, v, k - 1, delivered) +
      [if Dropped(p, v, k - 1, delivered) then DropEvent(n) else Continue(n)]
  }

  function ReconcileSteps(n: string, listing: seq<string>, now: Time, p: Plan, v: Validation, k: nat,
                          delivered: nat -> bool): seq<Step>
    requires k <= EffectCount(p, v)
  {
    [Begin(n, listing, now)] + EffectSteps(n, p, v, k, delivered) +
      [if k < EffectCount(p, v) then Crash(n) else Continue(n)]
  }

  // One of the first k effects was an event that did not arrive
  ghost predicate AnyDropped(p: Plan, v: Validation, k: nat, delivered: nat -> bool)
    requires k <= EffectCount(p, v)
  {
    exists i: nat :: i < k && Dropped(p, v, i, delivered)
  }

  // k effects into a reconcile that nothing interrupts
  lemma {:induction false} EffectsSoFar(cfg: Config, s: System, n: string, listing: seq<string>, now: Time, k: nat,
                                        delivered: nat -> bool)
    requires n in s.c.validations && n !in s.flights && Lists(s.c, n, listing)
    requires k <= EffectCount(PlanOf(cfg, s.c, n, listing, now), s.c.validations[n])
    ensures var v, p := s.c.validations[n], PlanOf(cfg, s.c, n, listing, now);
            Run(cfg, s, [Begin(n, listing, now)] + EffectSteps(n, p, v, k, delivered)) ==
            s.(c := ApplyEffects(s.c, n, p, v, k, delivered),
              flights := s.flights[n := Flight(s.c, v, listing, now, p, k)],
               lost := if AnyDropped(p, v, k, delivered) then s.lost + {n} else s.lost)
  {
    hide PlanOf, EffectCount, EffectAt, ApplyEffect, Next, Dropped, AnyDropped, CreatesOnly;
    var v, p := s.c.validations[n], PlanOf(cfg, s.c, n, listing, now);
    if k == 0 {
      NoneDroppedYet(p, v, delivered);
      assert [Begin(n, listing, now)] + EffectSteps(n, p, v, 0, delivered) == [] + [Begin(n, listing, now)];
      RunAppend(cfg, s, [], Begin(n, listing, now));
      BeginOnce(cfg, s, n, listing, now);
    } else {
      var before := [Begin(n, listing, now)] + EffectSteps(n, p, v, k - 1, delivered);
      var last := if Dropped(p, v, k - 1, delivered) then DropEvent(n) else Continue(n);
      EffectsSoFar(cfg, s, n, listing, now, k - 1, delivered);
      var t := Run(cfg, s, before);
      var f := Flight(s.c, v, listing, now, p, k);
      assert t.flights[n := f] == s.flights[n := f];
      AnyDroppedSnoc(p, v, k, delivered);
      CreationsPublishNothing(cfg, s.c, n, listing, now);
      assert Run(cfg, s, [Begin(n, listing, now)] + EffectSteps(n, p, v, k, delivered)) == Next(cfg, t, last) by {
        assert [Begin(n, listing, now)] + EffectSteps(n, p, v, k, delivered) == before + [last];
        RunAppend(cfg, s, before, last);
      }
      hide Run, EffectSteps;
      EffectOnce(cfg, t, n, delivered);
    }
  }

  lemma NoneDroppedYet(p: Plan, v: Validation, delivered: nat -> bool)
    ensures !AnyDropped(p, v, 0, delivered)
  {
  }

  lemma AnyDroppedSnoc(p: Plan, v: Validation, k: nat, delivered: nat -> bool)
    requires 0 < k <= EffectCount(p, v)
    ensures AnyDropped(p, v, k, delivered) <==> AnyDropped(p, v, k - 1, delivered) || Dropped(p, v, k - 1, delivered)
  {
    hide Dropped, EffectCount;
  }

  lemma BeginOnce(cfg: Config, s: System, n: string, listing: seq<string>, now: Time)
    requires n in s.c.validations && n !in s.flights && Lists(s.c, n, listing)
    ensures Next(cfg, s, Begin(n, listing, now)) ==
            s.(flights := s.flights[n := Flight(s.c, s.c.validations[n], listing, now,
                                                PlanOf(cfg, s.c, n, listing, now), 0)])
  {
    hide PlanOf;
  }

  // An effect happens, or its event is dropped
  lemma EffectOnce(cfg: Config, s: System, n: string, delivered: nat -> bool)
    requires n in s.flights && !s.flights[n].Over() && CreatesOnly(s.flights[n].plan)
    ensures var f := s.flights[n];
            var dropped := Dropped(f.plan, f.v, f.done, delivered);
            Next(cfg, s, if dropped then DropEvent(n) else Continue(n)) ==
            s.(c := if dropped then s.c else ApplyEffect(s.c, n, EffectAt(f.plan, f.v, f.done)),
               flights := s.flights[n := f.(done := f.done + 1)],
               lost := if dropped then s.lost + {n} else s.lost)
  {
    hide ApplyEffect, EffectCount;
    var f := s.flights[n];
    PublishMeansPatched(f);
    hide EffectAt;
  }

  predicate CreatesOnly(p: Plan) {
    forall i | 0 <= i < |p.creates| :: !p.creates[i].Publish?
  }

  // A plan creates children and publishes nothing until its status is written
  lemma PublishMeansPatched(f: Flight)
    requires !f.Over() && CreatesOnly(f.plan)
    ensures EffectAt(f.plan, f.v, f.done).Publish? ==> f.Patched()
  {
  }

  lemma CreationsPublishNothing(cfg: Config, c: Cluster, n: string, listing: seq<string>, now: Time)
    requires n in c.validations && Lists(c, n, listing)
    ensures CreatesOnly(PlanOf(cfg, c, n, listing, now))
  {
    hide RequiredScanners, ScanJobName, GateOf, Summaries;
  }

  // What the method does is what a run of the system does, wherever the process dies and whatever is dropped;
  // so everything proved of runs holds of it. It loses an event exactly when one was dropped, or the process died
  // with one still to publish.
  lemma ReconcileIsARun(cfg: Config, s: System, n: string, listing: seq<string>, now: Time, k: nat,
      delivered: nat -> bool)
    requires n in s.c.validations && n !in s.flights && Lists(s.c, n, listing)
    requires k <= EffectCount(PlanOf(cfg, s.c, n, listing, now), s.c.validations[n])
    ensures var v, p := s.c.validations[n], PlanOf(cfg, s.c, n, listing, now);
            var t := Run(cfg, s, ReconcileSteps(n, listing, now, p, v, k, delivered));
            var loses := AnyDropped(p, v, k, delivered) || |p.creates| < k < EffectCount(p, v);
            && t.c == ApplyEffects(s.c, n, p, v, k, delivered) && t.flights == s.flights
            && t.lost == if loses then s.lost + {n} else s.lost
  {
    var v, p := s.c.validations[n], PlanOf(cfg, s.c, n, listing, now);
    var last := if k < EffectCount(p, v) then Crash(n) else Continue(n);
    var before := [Begin(n, listing, now)] + EffectSteps(n, p, v, k, delivered);
    EffectsSoFar(cfg, s, n, listing, now, k, delivered);
    var f := Flight(s.c, v, listing, now, p, k);
    var t := Run(cfg, s, before);
    NextMeansStatus(p, v, k);
    hide PlanOf, Run, ApplyEffects, EffectAt, EffectCount, Next, Lists, AnyDropped, EffectSteps;
    assert Run(cfg, s, ReconcileSteps(n, listing, now, p, v, k, delivered)) == Next(cfg, t, last) by {
      assert ReconcileSteps(n, listing, now, p, v, k, delivered) == before + [last];
      RunAppend(cfg, s, before, last);
    }
    LastOnce(cfg, t, n);
    assert s.flights[n := f] - {n} == s.flights;
  }

  lemma NextMeansStatus(p: Plan, v: Validation, k: nat)
    ensures |p.creates| < k <= EffectCount(p, v) ==> p.next.Some?
  {
  }

  lemma LastOnce(cfg: Config, s: System, n: string)
    requires n in s.flights
    ensures var f := s.flights[n];
            Next(cfg, s, if f.Over() then Continue(n) else Crash(n)) ==
            s.(flights := s.flights - {n}, lost := if f.Patched() && !f.Over() then s.lost + {n} else s.lost)
  {
    hide EffectAt, ApplyEffect, EffectCount;
  }

  // ---- The other controllers ----

  class ScanJobController {
    const cfg: Config
    var c: Cluster
    var calls: nat

    constructor (cfg: Config, c: Cluster, calls: nat)
      ensures this.cfg == cfg && this.c == c && this.calls == calls
    {
      this.cfg, this.c, this.calls := cfg, c, calls;
    }

    // Look up the Kubernetes job of a scan job and create it when it is not there
    method CreateScannerJob(name: string) returns (ok: bool)
      modifies this
      ensures ok == (old(calls) > 0) && calls == old(calls) - (if ok then 1 else 0)
      ensures c == if ok && name !in old(c).jobs then old(c).(jobs := old(c).jobs[name := false]) else old(c)
    {
      if calls == 0 { return false; }
      calls := calls - 1;
      if name !in c.jobs {
        c := c.(jobs := c.jobs[name := false]);
      }
      return true;
    }

    // A merge patch: members that are not in it keep their stored values
    method PatchPhase(name: string, phase: ScanJobPhase, findings: Option<seq<Finding>>,
      attestation: Option<string>) returns (ok: bool)
      requires name in c.scanJobs
      modifies this
      ensures ok == (old(calls) > 0) && calls == old(calls) - (if ok then 1 else 0)
      ensures c == if !ok then old(c) else
                old(c).(scanJobs := old(c).scanJobs[name :=
                  var j := old(c).scanJobs[name];
                  var st := j.status.GetOr(DEFAULT_JOB_STATUS);
                  j.(status := Some(ScanJobStatus(Some(phase), findings.GetOr(st.findings),
                       if findings.Some? then |findings.value| else st.findingsCount,
                         attestation.Or(st.attestation))))])
    {
      if calls == 0 { return false; }
      calls := calls - 1;
      var j := c.scanJobs[name];
      var st := j.status.GetOr(DEFAULT_JOB_STATUS);
      st := st.(phase := Some(phase));
      if findings.Some? {
        st := st.(findingsCount := |findings.value|, findings := findings.value);
      }
      if attestation.Some? {
        st := st.(attestation := attestation);
      }
      c := c.(scanJobs := c.scanJobs[name := j.(status := Some(st))]);
      return true;
    }

    // The parsed output and its hash, once the Kubernetes job is there and done
    method CollectResults(name: string, report: seq<Finding>) returns (results: Option<(seq<Finding>, string)>)
      ensures results == if name in c.jobs && c.jobs[name] then Some((report, cfg.blake3(report))) else None
    {
      if name !in c.jobs { return None; }
      if !c.jobs[name] { return None; }
      return Some((report, cfg.blake3(report)));
    }

    // A reconcile that got to do anything is the system's step, crashed if it did not get to the end
    method Reconcile(name: string, report: seq<Finding>) returns (ok: bool)
      requires name in c.scanJobs && StampedBy(c.scanJobs[name].scanner, report)
      modifies this
      ensures old(calls) == 0 ==> c == old(c)
      ensures old(calls) > 0 ==> c == ScanJobStepped(cfg, old(c), name, report, !ok)
      ensures old(calls) >= 2 ==> ok
    {
      var current := c.scanJobs[name].Phase().GetOr(JobPending);
      assert c.scanJobs[name := c.scanJobs[name]] == c.scanJobs;
      match current {
        case JobPending =>
          ok := CreateScannerJob(name);
          if !ok { return; }
          ok := PatchPhase(name, Forking, None, None);
        case Forking => ok := PatchPhase(name, Execing, None, None);
        case Execing => ok := PatchPhase(name, Running, None, None);
        case Running =>
          var results := CollectResults(name, report);
          ok := true;
          if results.Some? {
            ok := PatchPhase(name, Attested, Some(results.value.0), Some(results.value.1));
          }
        case _ => ok := true;
      }
    }
  }

  class TenantController {
    var c: Cluster

    constructor (c: Cluster)
      ensures this.c == c
    {
      this.c := c;
    }

    // No target: DAST is skipped. An in-cluster target is ready once its service is there; any other at once.
    method AssessTarget(url: Option<string>, inCluster: bool, serviceUp: bool) returns (target: Target)
      ensures url.None? ==> target == NoTargetFed
      ensures url.Some? ==> target == if inCluster && !serviceUp then Waiting(url.value) else ReadyAt(url.value)
    {
      if url.None? { return NoTargetFed; }
      if inCluster {
        if serviceUp { return ReadyAt(url.value); }
        return Waiting(url.value);
      }
      return ReadyAt(url.value);
    }

    method PatchStatus(name: string, next: TenantStatus)
      requires name in c.tenants
      modifies this
      ensures c == old(c).(tenants := old(c).tenants[name :=
                var t := old(c).tenants[name];
                t.(status := Some(TenantPatched(t.status.GetOr(DEFAULT_TENANT_STATUS), next)))])
    {
      var t := c.tenants[name];
      var patched := TenantPatched(t.status.GetOr(DEFAULT_TENANT_STATUS), next);
      c := c.(tenants := c.tenants[name := t.(status := Some(patched))]);
    }

    method Reconcile(name: string, target: Target, now: Time)
      requires name in c.tenants
      modifies this
      ensures c == old(c).(tenants := old(c).tenants[name := TenantAfter(old(c).tenants[name], target, now)])
    {
      var t := c.tenants[name];
      assert c.tenants[name := t] == c.tenants;
      match t.Phase() {
        case Ready => return;
        case TenantScanning => return;
        case TenantReaped => return;
        case TenantFailed => return;
        case Teardown =>
          var next := t.status.GetOr(DEFAULT_TENANT_STATUS);
          next := next.(phase := Some(TenantReaped));
          next := next.(teardownStartedAt := Some(now));
          PatchStatus(name, next);
          return;
        case _ =>
      }
      var next := t.status.GetOr(DEFAULT_TENANT_STATUS);
      if next.allocatedAt.None? {
        next := next.(allocatedAt := Some(now));
      }
      match target {
        case ReadyAt(url) =>
          next := next.(phase := Some(Ready), readyAt := Some(now), ingressUrl := Some(url), podsReady := 1,
            podsTotal := 1);
        case NoTargetFed =>
          next := next.(phase := Some(Ready), readyAt := Some(now), ingressUrl := None, podsReady := 0, podsTotal := 0);
        case Waiting(url) =>
          next := next.(phase := Some(PodsRunning), ingressUrl := Some(url));
      }
      PatchStatus(name, next);
    }
  }

  class OutcomeAppender {
    const cfg: Config
    var c: Cluster

    constructor (cfg: Config, c: Cluster)
      ensures this.cfg == cfg && this.c == c
    {
      this.cfg, this.c := cfg, c;
    }

    method Handle(n: string, observed: Validation, now: Time)
      requires n in c.validations && MayObserve(observed, c.validations[n])
      modifies this
      ensures c == if observed.Phase().Terminal() && observed.Status().receipt.None?
                   then Receipted(cfg, old(c), n, observed, now) else old(c)
    {
      var st := observed.status;
      if st.None? || st.value.phase.None? { return; }
      if !st.value.phase.value.Terminal() { return; }
      if st.value.receipt.Some? { return; }
      var receipt := BuildReceipt(cfg, observed, now);
      var v := c.validations[n];
      c := c.(validations := c.validations[n := v.(status := Some(v.Status().(receipt := Some(receipt))))]);
    }
  }
}
