/** What a finished validation shows, in plain words: its summaries, its decision, the steps of its action and its
    receipt, said of the children's reports and the deployment flags alone. */
module Outcomes {
  import opened Wrappers
  import opened Crds
  import opened StableOrder
  import opened Encodings
  import opened Evidence
  import opened Actions
  import opened Security
  import opened SecurityLaws
  import opened Pipeline
  import opened PipelineHistory
  import opened ChildFindings
  import opened PipelineSafety
  import opened DastTargets
  import Laws = DriftLaws
  import Receipts

  // ---- What is stored is what the gate made of the children there are ----

  ghost predicate SummedUp(c: Cluster, n: string, v: Validation) {
    exists listing :: Lists(c, n, listing) && v.Status().scanJobs == Summaries(c, listing)
  }

  ghost predicate JudgedBy(cfg: Config, c: Cluster, n: string, v: Validation) {
    var gate := v.Status().gateDecision;
    gate.Some? &&
    exists listing :: Lists(c, n, listing) && gate.value == GateOf(cfg, v, Children(c, listing), gate.value.decidedAt)
  }

  ghost predicate OutcomeOk(cfg: Config, c: Cluster, n: string, v: Validation) {
    (v.Phase().Rank() >= 3 ==> SummedUp(c, n, v)) && (v.Phase().Rank() == 6 ==> JudgedBy(cfg, c, n, v))
  }

  ghost predicate OutcomesOk(cfg: Config, s: System) {
    && (forall n | n in s.c.validations :: OutcomeOk(cfg, s.c, n, s.c.validations[n]))
    && (forall n | n in s.flights :: OutcomeOk(cfg, s.flights[n].read, n, s.flights[n].v))
  }

  lemma ListingStays(cfg: Config, a: Cluster, b: Cluster, n: string, listing: seq<string>)
    requires JobsOk(cfg, a) && JobsOk(cfg, b) && Evolves(a, b)
    requires AllAttested(cfg, a.scanJobs, n) && Lists(a, n, listing)
    ensures Lists(b, n, listing)
    ensures Children(b, listing) == Children(a, listing) && Summaries(b, listing) == Summaries(a, listing)
  {
    hide Names, JobOk, SummaryOf;
    ListingIsTheNames(cfg, a, n, listing);
    AttestedFindingsStay(cfg, a, b, n);
    forall k | k in b.scanJobs ensures b.scanJobs[k].parent == n <==> k in Names(cfg, n) {
      ChildrenHaveTheNames(cfg, b, n, k);
    }
  }

  lemma OutcomeStays(cfg: Config, a: Cluster, b: Cluster, n: string, v: Validation)
    requires JobsOk(cfg, a) && JobsOk(cfg, b) && Evolves(a, b) && OutcomeOk(cfg, a, n, v)
    requires v.Phase().Rank() >= 3 ==> AllAttested(cfg, a.scanJobs, n)
    ensures OutcomeOk(cfg, b, n, v)
  {
    hide JobsOk, Evolves, GateOf, AllAttested;
    if v.Phase().Rank() >= 3 {
      var listing :| Lists(a, n, listing) && v.Status().scanJobs == Summaries(a, listing);
      ListingStays(cfg, a, b, n, listing);
      assert SummedUp(b, n, v);
    }
    if v.Phase().Rank() == 6 {
      var at := v.Status().gateDecision.value;
      var listing :| Lists(a, n, listing) && at == GateOf(cfg, v, Children(a, listing), at.decidedAt);
      ListingStays(cfg, a, b, n, listing);
      assert JudgedBy(cfg, b, n, v);
    }
  }

  // The gate looks at the digest and the service of a validation and at nothing else of it
  lemma GateSeesTheImage(cfg: Config, v: Validation, w: Validation, children: seq<ScanJob>, now: Time)
    requires v.imageDigest == w.imageDigest && v.service == w.service
    ensures GateOf(cfg, v, children, now) == GateOf(cfg, w, children, now)
  {
  }

  lemma ListedAreThere(c: Cluster, n: string, listing: seq<string>)
    requires Lists(c, n, listing)
    ensures forall k | k in listing :: k in c.scanJobs
  {
  }

  lemma ScanningSumsUp(cfg: Config, c: Cluster, n: string, v: Validation, listing: seq<string>, now: Time)
    requires Lists(c, n, listing) && v.Phase().Scanning? && listing != []
    ensures var next := PlanScanning(cfg, c, n, v, listing, now).next;
            next.Some? && OutcomeOk(cfg, c, n, v.(status := next))
  {
    ListedAreThere(c, n, listing);
    hide Summaries, Lists, TerminalJob, PlanProvisioning;
    var w := v.(status := PlanScanning(cfg, c, n, v, listing, now).next);
    assert w.Status().scanJobs == Summaries(c, listing);
    assert SummedUp(c, n, w);
  }

  lemma GateMakesItJudged(cfg: Config, c: Cluster, n: string, v: Validation, w: Validation, listing: seq<string>,
    now: Time)
    requires Lists(c, n, listing) && forall k | k in listing :: k in c.scanJobs
    requires w.imageDigest == v.imageDigest && w.service == v.service
    requires w.Status().gateDecision == Some(GateOf(cfg, v, Children(c, listing), now))
    ensures JudgedBy(cfg, c, n, w)
  {
    GateDecidedAt(cfg, v, Children(c, listing), now);
    GateSeesTheImage(cfg, v, w, Children(c, listing), now);
    hide Lists, GateOf, Children;
  }

  lemma GatedStatus(cfg: Config, c: Cluster, v: Validation, listing: seq<string>, now: Time)
    requires forall k | k in listing :: k in c.scanJobs
    ensures var w := v.(status := PlanGating(cfg, c, v, listing, now).next);
            && w.Status().gateDecision == Some(GateOf(cfg, v, Children(c, listing), now))
            && w.Status().scanJobs == v.Status().scanJobs
  {
    hide GateOf;
  }

  lemma StillSummedUp(c: Cluster, n: string, v: Validation, w: Validation)
    requires SummedUp(c, n, v) && w.Status().scanJobs == v.Status().scanJobs
    ensures SummedUp(c, n, w)
  {
    hide Lists, Summaries;
  }

  lemma LateIsSummedUp(cfg: Config, c: Cluster, n: string, v: Validation)
    requires OutcomeOk(cfg, c, n, v) && v.Phase().Rank() >= 3
    ensures SummedUp(c, n, v)
  {
    hide SummedUp, JudgedBy;
  }

  lemma BothMakeTheOutcome(cfg: Config, c: Cluster, n: string, v: Validation)
    requires SummedUp(c, n, v) && JudgedBy(cfg, c, n, v)
    ensures OutcomeOk(cfg, c, n, v)
  {
    hide SummedUp, JudgedBy;
  }

  lemma GatingJudges(cfg: Config, c: Cluster, n: string, v: Validation, listing: seq<string>, now: Time)
    requires Lists(c, n, listing) && v.Phase().Gating? && OutcomeOk(cfg, c, n, v)
    ensures OutcomeOk(cfg, c, n, v.(status := PlanGating(cfg, c, v, listing, now).next))
  {
    hide Lists, GateOf, Summaries, Children, JudgedBy, SummedUp, PlanGating, OutcomeOk;
    ListedAreThere(c, n, listing);
    LateIsSummedUp(cfg, c, n, v);
    GatedStatus(cfg, c, v, listing, now);
    var w := v.(status := PlanGating(cfg, c, v, listing, now).next);
    GateMakesItJudged(cfg, c, n, v, w, listing, now);
    StillSummedUp(c, n, v, w);
    BothMakeTheOutcome(cfg, c, n, w);
  }

  lemma EarlyPhasesPromiseNothing(cfg: Config, c: Cluster, n: string, v: Validation)
    requires v.Phase().Rank() < 3
    ensures OutcomeOk(cfg, c, n, v)
  {
  }

  lemma EarlyPlans(cfg: Config, c: Cluster, n: string, v: Validation, now: Time)
    ensures var next := PlanPending(n, v, now).next; next.Some? ==> v.(status := next).Phase().Rank() < 3
    ensures var next := PlanProvisioning(cfg, c, n, v, now).next; next.Some? ==> v.(status := next).Phase().Rank() < 3
  {
    hide RequiredScanners;
  }

  lemma LatePlans(cfg: Config, c: Cluster, n: string, v: Validation, listing: seq<string>)
    requires forall k | k in listing :: k in c.scanJobs
    ensures var w := v.(status := PlanAggregating(cfg, c, v, listing).next);
            w.Phase().Rank() == 4 && w.Status().scanJobs == v.Status().scanJobs
    ensures var w := v.(status := PlanAttesting(v).next);
            w.Phase().Rank() == 5 && w.Status().scanJobs == v.Status().scanJobs
  {
  }

  lemma PlanKeepsOutcome(cfg: Config, c: Cluster, n: string, listing: seq<string>, now: Time)
    requires n in c.validations && Lists(c, n, listing) && JobsOk(cfg, c)
    requires ValidationOk(cfg, c, n, c.validations[n]) && OutcomeOk(cfg, c, n, c.validations[n])
    ensures var next := PlanOf(cfg, c, n, listing, now).next;
            next.Some? ==> OutcomeOk(cfg, c, n, c.validations[n].(status := next))
  {
    var v := c.validations[n];
    ListedAreThere(c, n, listing);
    hide Lists, JobsOk, ValidationOk, OutcomeOk, PlanPending, PlanProvisioning, PlanScanning, PlanAggregating,
      PlanAttesting, PlanGating;
    EarlyPlans(cfg, c, n, v, now);
    LatePlans(cfg, c, n, v, listing);
    var w := v.(status := PlanOf(cfg, c, n, listing, now).next);
    match v.Phase()
    case Scanning =>
      ScanningKeeps(cfg, c, n, v, listing, now);
      ScanningSumsUp(cfg, c, n, v, listing, now);
    case Gating => GatingJudges(cfg, c, n, v, listing, now);
    case Aggregating => SameSummaries(cfg, c, n, v, w);
    case Attesting => SameSummaries(cfg, c, n, v, w);
    case _ => if w.Phase().Rank() < 3 { EarlyPhasesPromiseNothing(cfg, c, n, w); }
  }

  lemma SameSummaries(cfg: Config, c: Cluster, n: string, v: Validation, w: Validation)
    requires OutcomeOk(cfg, c, n, v) && v.Phase().Rank() >= 3 && w.Phase().Rank() < 6
    requires w.Status().scanJobs == v.Status().scanJobs
    ensures OutcomeOk(cfg, c, n, w)
  {
  }

  lemma PatchedMeansAttested(cfg: Config, c: Cluster, n: string, listing: seq<string>, now: Time)
    requires n in c.validations && Lists(c, n, listing) && JobsOk(cfg, c) && ValidationOk(cfg, c, n, c.validations[n])
    ensures var next := PlanOf(cfg, c, n, listing, now).next;
            next.Some? && c.validations[n].(status := next).Phase().Rank() >= 3 ==> AllAttested(cfg, c.scanJobs, n)
  {
    var v := c.validations[n];
    ListedAreThere(c, n, listing);
    EarlyPlans(cfg, c, n, v, now);
    PromiseMeansAttested(cfg, c, n, v);
    hide Lists, JobsOk, ValidationOk, PlanPending, PlanProvisioning, PlanAggregating, PlanAttesting, PlanGating,
      PlanScanning;
    if v.Phase().Scanning? {
      ScanningKeeps(cfg, c, n, v, listing, now);
      PromiseMeansAttested(cfg, c, n, v.(status := PlanScanning(cfg, c, n, v, listing, now).next));
    }
  }

  lemma PromiseMeansAttested(cfg: Config, c: Cluster, n: string, v: Validation)
    requires ValidationOk(cfg, c, n, v)
    ensures v.Phase().Rank() >= 3 ==> AllAttested(cfg, c.scanJobs, n)
  {
    hide SummariesFit, GateFits, Canonical, FindingsOf;
  }

  // Kept, and built on children that are attested for good
  ghost predicate Settled(cfg: Config, c: Cluster, n: string, v: Validation) {
    OutcomeOk(cfg, c, n, v) && (v.Phase().Rank() >= 3 ==> AllAttested(cfg, c.scanJobs, n))
  }

  lemma PatchSettles(cfg: Config, s: System, n: string)
    requires SafeOk(cfg, s) && OutcomesOk(cfg, s) && n in s.flights && s.flights[n].plan.next.Some?
    ensures Settled(cfg, s.c, n, s.flights[n].v.(status := s.flights[n].plan.next))
  {
    var f := s.flights[n];
    var w := f.v.(status := f.plan.next);
    hide HistoryOk, OutcomeOk, ValidationOk, JobsOk, Lists, PlanOf, Created, Evolves, AllAttested;
    assert FlightSafe(cfg, s.c, n, f);
    PlanKeepsOutcome(cfg, f.read, n, f.listing, f.now);
    PatchedMeansAttested(cfg, f.read, n, f.listing, f.now);
    OutcomeStays(cfg, f.read, s.c, n, w);
    if w.Phase().Rank() >= 3 { AttestedFindingsStay(cfg, f.read, s.c, n); }
  }

  lemma StoredSettles(cfg: Config, s: System, n: string)
    requires SafeOk(cfg, s) && OutcomesOk(cfg, s) && n in s.c.validations
    ensures Settled(cfg, s.c, n, s.c.validations[n])
  {
    hide HistoryOk, OutcomeOk, ValidationOk, JobsOk, FlightSafe, AllAttested;
    PromiseMeansAttested(cfg, s.c, n, s.c.validations[n]);
  }

  lemma ContinuedOutcomes(cfg: Config, s: System, n: string, m: string)
    requires SafeOk(cfg, s) && OutcomesOk(cfg, s) && n in s.flights && m in ContinueFlight(s, n).c.validations
    ensures Settled(cfg, s.c, m, ContinueFlight(s, n).c.validations[m])
  {
    hide Settled, ValidationOk, JobsOk, EventsOk, DispatchOk, EventsKnown, ValidationsOk, FlightSafe, ContinueFlight,
      PlanSound, OutcomesOk;
    var f := s.flights[n];
    assert FlightOk(s.c, n, f);
    ContinuedValidations(s, n);
    if f.done == |f.plan.creates| && f.plan.next.Some? && m == n {
      PatchSettles(cfg, s, n);
    } else {
      StoredSettles(cfg, s, m);
    }
  }

  lemma ReceiptKeepsOutcome(cfg: Config, c: Cluster, n: string, v: Validation, r: Receipt)
    requires OutcomeOk(cfg, c, n, v)
    ensures OutcomeOk(cfg, c, n, v.(status := Some(v.Status().(receipt := Some(r)))))
  {
    hide GateOf, Lists, Children, Summaries;
    var w := v.(status := Some(v.Status().(receipt := Some(r))));
    forall children, now ensures GateOf(cfg, v, children, now) == GateOf(cfg, w, children, now) {
      GateSeesTheImage(cfg, v, w, children, now);
    }
  }

  lemma AppendedOutcome(cfg: Config, s: System, step: Step)
    requires step.AppendReceipt? && step.n in s.c.validations && Settled(cfg, s.c, step.n, s.c.validations[step.n])
    ensures step.n in Next(cfg, s, step).c.validations
    ensures Settled(cfg, s.c, step.n, Next(cfg, s, step).c.validations[step.n])
  {
    hide OutcomeOk, BuildReceipt, MayObserve, AllAttested;
    ReceiptKeepsOutcome(cfg, s.c, step.n, s.c.validations[step.n], BuildReceipt(cfg, step.observed, step.now));
  }

  // Against the children as they were before the step
  lemma StepSettles(cfg: Config, s: System, step: Step, n: string)
    requires SafeOk(cfg, s) && OutcomesOk(cfg, s) && n in Next(cfg, s, step).c.validations
    ensures var v := Next(cfg, s, step).c.validations[n]; v.Phase().Rank() < 3 || Settled(cfg, s.c, n, v)
  {
    hide SafeOk, Settled, Next, ContinueFlight, OutcomesOk, HistoryOk;
    SafeHasHistory(cfg, s);
    if n !in s.c.validations {
      OnlyCreationAdds(cfg, s, step, n);
      NewcomerFits(cfg, s, step);
    } else {
      OnlyTwoStepsWriteAStatus(cfg, s, step, n);
      StoredSettles(cfg, s, n);
      if step.Continue? && step.n in s.flights { ContinuedOutcomes(cfg, s, step.n, n); }
      if step.AppendReceipt? && step.n == n { AppendedOutcome(cfg, s, step); }
    }
  }

  lemma SafeJobs(cfg: Config, s: System)
    requires SafeOk(cfg, s)
    ensures JobsOk(cfg, s.c)
  {
    hide HistoryOk, JobsOk, ValidationOk, FlightSafe;
  }

  lemma StepKeepsStored(cfg: Config, s: System, step: Step, n: string)
    requires SafeOk(cfg, s) && OutcomesOk(cfg, s) && !IsDelete(step) && n in Next(cfg, s, step).c.validations
    ensures OutcomeOk(cfg, Next(cfg, s, step).c, n, Next(cfg, s, step).c.validations[n])
  {
    var t := Next(cfg, s, step);
    StepKeepsSafe(cfg, s, step);
    StepEvolves(cfg, s, step);
    SafeJobs(cfg, s);
    SafeJobs(cfg, t);
    StepSettles(cfg, s, step, n);
    hide SafeOk, Next, OutcomeOk, JobsOk, Evolves, AllAttested, OutcomesOk;
    if t.c.validations[n].Phase().Rank() < 3 {
      EarlyPhasesPromiseNothing(cfg, t.c, n, t.c.validations[n]);
    } else {
      OutcomeStays(cfg, s.c, t.c, n, t.c.validations[n]);
    }
  }

  lemma StepKeepsRead(cfg: Config, s: System, step: Step, n: string)
    requires SafeOk(cfg, s) && OutcomesOk(cfg, s) && !IsDelete(step) && n in Next(cfg, s, step).flights
    ensures OutcomeOk(cfg, Next(cfg, s, step).flights[n].read, n, Next(cfg, s, step).flights[n].v)
  {
    StepKeepsSafe(cfg, s, step);
    FlightReads(cfg, s, step);
    var t := Next(cfg, s, step);
    ReadsItsValidation(cfg, t, n);
    if n in s.flights { ReadsItsValidation(cfg, s, n); }
    hide SafeOk, Next, OutcomeOk;
  }

  lemma ReadsItsValidation(cfg: Config, s: System, n: string)
    requires SafeOk(cfg, s) && n in s.flights
    ensures var f := s.flights[n]; n in f.read.validations && f.read.validations[n] == f.v
  {
    hide HistoryOk, JobsOk, ValidationOk, PlanOf, Lists, Evolves, Created;
  }

  lemma {:induction false} OutcomesHold(cfg: Config, steps: seq<Step>)
    requires DeleteFree(steps)
    ensures OutcomesOk(cfg, Run(cfg, EMPTY_SYSTEM, steps))
  {
    if steps != [] {
      var s, step := Run(cfg, EMPTY_SYSTEM, steps[..|steps| - 1]), steps[|steps| - 1];
      SafeHolds(cfg, steps[..|steps| - 1]);
      OutcomesHold(cfg, steps[..|steps| - 1]);
      hide SafeOk, Next, OutcomeOk;
      var t := Next(cfg, s, step);
      forall n | n in t.c.validations ensures OutcomeOk(cfg, t.c, n, t.c.validations[n]) {
        StepKeepsStored(cfg, s, step, n);
      }
      forall n | n in t.flights ensures OutcomeOk(cfg, t.flights[n].read, n, t.flights[n].v) {
        StepKeepsRead(cfg, s, step, n);
      }
    }
  }

  // ---- The gate in plain words, whatever children it is given ----

  lemma SpecInPlainWords(cfg: Config)
    ensures var spec := SpecFor(cfg);
            && spec.maxHighAgeDays == 15 && spec.maxMediumAgeDays == 90 && !spec.harborForwardingEnabled
            && spec.requiredAttestations == (if cfg.scanOnly then {} else {CartorioActive, CosignSig, SbomSpdx,
              SlsaAttested})
            && forall s :: s in spec.requiredScanners <==> Runs(cfg, s)
  {
    forall s ensures s in SpecFor(cfg).requiredScanners <==> Runs(cfg, s) { RequiredAreThoseThatRun(cfg, s); }
  }

  // What the gate is shown of a validation: its image, not yet admitted and not attested, with what was found
  function Shown(v: Validation, children: seq<ScanJob>): DigestObservation {
    DigestObservation(v.imageDigest, v.service, ArtifactPending, AllFindings(children), {}, Reported(children))
  }

  lemma GateInPlainWords(cfg: Config, v: Validation, children: seq<ScanJob>, now: Time)
    ensures var g, shown := GateOf(cfg, v, children, now), [Shown(v, children)];
            && g.decidedAt == now
            && g.severity == (if Laws.SeesCritical(shown) then Critical
                              else if Laws.SeesDrift(SpecFor(cfg), now, shown) then Functional else Cosmetic)
            && g.verdict == (if Laws.SeesCritical(shown) then VerdictFailed else VerdictPassed)
            && exists r :: Laws.Decided(SpecFor(cfg), now, shown, r) &&
                 g.action == if cfg.scanOnly || !r.AutoCorrect? then None else Some(r.action)
  {
    hide DiffOf, Classify, DecideOf, SpecFor, Laws.SeesCritical, Laws.SeesDrift, AllFindings, Reported;
    var shown := [Shown(v, children)];
    var d := DiffOf(SpecFor(cfg), now, shown);
    assert Snapshot(v, children, now).imageDigests == shown;
    Laws.SeverityInPlainWords(SpecFor(cfg), now, shown);
    Laws.DecisionInPlainWords(SpecFor(cfg), now, shown);
    var r := DecideOf(SpecFor(cfg), Classify(d), d);
    assert Laws.Decided(SpecFor(cfg), now, shown, r);
    DecisionsAreSimple(SpecFor(cfg), now, shown, r);
    hide Laws.Decided;
  }

  lemma DecisionsAreSimple(spec: SecuritySpec, now: Time, ds: seq<DigestObservation>, r: Decision)
    requires Laws.Decided(spec, now, ds, r)
    ensures r.AutoCorrect? || r.Alert? || r.NoAction?
    ensures Laws.SeesCritical(ds) ==> r.AutoCorrect?
  {
    hide Laws.SeesCritical, Laws.SeesDrift;
  }

  // ---- A finished validation ----

  ghost predicate Reports(c: Cluster, n: string, f: Finding) {
    exists k :: k in c.scanJobs && c.scanJobs[k].parent == n && c.scanJobs[k].status.Some? &&
                f in c.scanJobs[k].status.value.findings
  }

  lemma {:induction false} AllFindingsAreReported(c: Cluster, listing: seq<string>, f: Finding)
    requires forall k | k in listing :: k in c.scanJobs
    ensures f in AllFindings(Children(c, listing)) <==> exists k :: k in listing && f in c.scanJobs[k].Findings()
  {
    if listing != [] {
      assert forall k | k in listing[1..] :: k in listing;
      assert Children(c, listing)[1..] == Children(c, listing[1..]);
      AllFindingsAreReported(c, listing[1..], f);
      assert forall k :: k in listing <==> k == listing[0] || k in listing[1..];
    }
  }

  lemma ListedAreReported(c: Cluster, n: string, listing: seq<string>, f: Finding)
    requires Lists(c, n, listing)
    ensures f in AllFindings(Children(c, listing)) <==> Reports(c, n, f)
  {
    AllFindingsAreReported(c, listing, f);
    hide AllFindings, Children;
  }

  // Some child reports a finding of this severity that names a CVE and that no exception covers
  ghost predicate ReportsLive(c: Cluster, n: string, severity: FindingSeverity, now: Time, days: nat) {
    exists f :: Reports(c, n, f) && f.exceptionId.None? && f.cveId.Some? && f.severity == severity &&
                (severity == CriticalFinding || now - f.firstSeen >= (days + 1) * NANOS_PER_DAY)
  }

  // The action names this image and this service; its steps are for what the children report and for nothing else
  ghost predicate Remedied(c: Cluster, n: string, v: Validation, now: Time, a: TypedAction) {
    a.Compose? &&
    exists o: DigestObservation ::
      && o.digest == v.imageDigest && o.service == v.service && o.attestationsPresent == {}
      && (forall f :: f in o.findings <==> Reports(c, n, f))
      && if v.Phase() == Phase.Failed then Laws.Revokes(a.steps, Laws.FoundBy([o], Laws.Critically()))
         else Laws.Remedies(a.steps, Laws.Lacks([o], {CartorioActive, CosignSig, SbomSpdx, SlsaAttested}),
                            Laws.FoundBy([o], Laws.AgedHigh(15, now)))
  }

  lemma SeesCriticalMeans(c: Cluster, n: string, v: Validation, listing: seq<string>, now: Time)
    requires Lists(c, n, listing)
    ensures Laws.SeesCritical([Shown(v, Children(c, listing))]) <==> ReportsLive(c, n, CriticalFinding, now, 0)
  {
    var o := Shown(v, Children(c, listing));
    forall f ensures f in o.findings <==> Reports(c, n, f) { ListedAreReported(c, n, listing, f); }
    hide AllFindings, Children, Reported, Reports;
    assert Laws.SeesCritical([o]) <==> exists f :: f in o.findings && Laws.Counts(f, CriticalFinding) by {
      assert forall p :: p in [o] <==> p == o;
    }
  }

  lemma DriftOfOne(spec: SecuritySpec, now: Time, o: DigestObservation)
    ensures Laws.SeesDrift(spec, now, [o]) <==> Laws.Drifts(spec, now, o)
  {
    assert forall p :: p in [o] <==> p == o;
    hide Laws.Drifts;
  }

  lemma UnattestedDrifts(cfg: Config, now: Time, o: DigestObservation)
    requires o.attestationsPresent == {} && SpecFor(cfg).requiredScanners <= o.scannersReported
    ensures Laws.Drifts(SpecFor(cfg), now, o) <==>
            !cfg.scanOnly || exists f :: f in o.findings && Laws.Counts(f, HighFinding) && Laws.Aged(f, now, 15)
  {
    SpecInPlainWords(cfg);
    hide SpecFor, Laws.Counts, Laws.Aged, Runs;
    assert CartorioActive in SpecFor(cfg).requiredAttestations <==> !cfg.scanOnly;
  }

  lemma SeesDriftMeans(cfg: Config, c: Cluster, n: string, v: Validation, listing: seq<string>, now: Time)
    requires JobsOk(cfg, c) && AllThere(cfg, c.scanJobs, n) && Lists(c, n, listing)
    ensures Laws.SeesDrift(SpecFor(cfg), now, [Shown(v, Children(c, listing))]) <==>
            !cfg.scanOnly || ReportsLive(c, n, HighFinding, now, 15)
  {
    var o := Shown(v, Children(c, listing));
    forall f ensures f in o.findings <==> Reports(c, n, f) { ListedAreReported(c, n, listing, f); }
    AllScannersReported(cfg, c, n, listing);
    DriftOfOne(SpecFor(cfg), now, o);
    UnattestedDrifts(cfg, now, o);
    hide AllFindings, Children, Reported, Reports, SpecFor, JobsOk, AllThere, Lists, Laws.SeesDrift, Laws.Drifts;
  }

  lemma DecidedForOne(cfg: Config, c: Cluster, n: string, v: Validation, listing: seq<string>, now: Time, r: Decision)
    requires Lists(c, n, listing) && !cfg.scanOnly
    requires var shown := [Shown(v, Children(c, listing))];
             && Laws.Decided(SpecFor(cfg), now, shown, r) && Laws.SeesDrift(SpecFor(cfg), now, shown)
             && (Laws.SeesCritical(shown) <==> v.Phase() == Phase.Failed)
    ensures r.AutoCorrect? && Remedied(c, n, v, now, r.action)
  {
    var o := Shown(v, Children(c, listing));
    forall f ensures f in o.findings <==> Reports(c, n, f) { ListedAreReported(c, n, listing, f); }
    SpecInPlainWords(cfg);
    var required := {CartorioActive, CosignSig, SbomSpdx, SlsaAttested};
    Laws.LacksMembers([o], required);
    assert Laws.Lack(o, CartorioActive) in Laws.Lacks([o], required);
    hide AllFindings, Children, Reported, Reports, SpecFor, Lists, Runs, Laws.SeesCritical, Laws.SeesDrift,
      Laws.Lacks, Laws.FoundBy, Laws.Revokes, Laws.Remedies, Laws.Critically, Laws.AgedHigh;
    assert Laws.Lacks([o], required) != [];
  }

  // A terminal validation whose status the gate wrote
  lemma JudgementMeans(cfg: Config, c: Cluster, n: string, v: Validation)
    requires JobsOk(cfg, c) && AllThere(cfg, c.scanJobs, n) && JudgedBy(cfg, c, n, v)
    requires v.Phase() == PhaseFor(v.Status().gateDecision.value.verdict)
    ensures Plainly(cfg, c, n, v)
  {
    var gate := v.Status().gateDecision.value;
    var listing :| Lists(c, n, listing) && gate == GateOf(cfg, v, Children(c, listing), gate.decidedAt);
    ListedAreThere(c, n, listing);
    GateInPlainWords(cfg, v, Children(c, listing), gate.decidedAt);
    SeesCriticalMeans(c, n, v, listing, gate.decidedAt);
    SeesDriftMeans(cfg, c, n, v, listing, gate.decidedAt);
    hide JobsOk, AllThere, Lists, GateOf, Children, ReportsLive, Laws.SeesCritical, Laws.SeesDrift, Laws.Decided,
      SpecFor, Remedied, Shown, JudgedBy;
    var shown := [Shown(v, Children(c, listing))];
    if !cfg.scanOnly {
      var r :| Laws.Decided(SpecFor(cfg), gate.decidedAt, shown, r) &&
        gate.action == if cfg.scanOnly || !r.AutoCorrect? then None else Some(r.action);
      DecidedForOne(cfg, c, n, v, listing, gate.decidedAt, r);
    }
  }

  // The phase, the decision and the action, by what the children report at the time of the decision
  ghost predicate Plainly(cfg: Config, c: Cluster, n: string, v: Validation) {
    v.Status().gateDecision.Some? &&
    var gate := v.Status().gateDecision.value;
    var critical := ReportsLive(c, n, CriticalFinding, gate.decidedAt, 0);
    && v.Phase() == (if critical then Phase.Failed else Passed)
    && gate.verdict == (if critical then VerdictFailed else VerdictPassed)
    && gate.severity == (if critical then Critical
                         else if !cfg.scanOnly || ReportsLive(c, n, HighFinding, gate.decidedAt, 15) then Functional
                         else Cosmetic)
    && (cfg.scanOnly <==> gate.action.None?)
    && (gate.action.Some? ==> Remedied(c, n, v, gate.decidedAt, gate.action.value))
  }

  // Over every run without external deletes: a finished validation has failed exactly when some child reports a
  // critical finding that names a CVE and that no exception covers; its severity, its action and each step of the
  // action say of its image and service what the children report, and nothing else
  lemma FinishedInPlainWords(cfg: Config, steps: seq<Step>, n: string)
    requires var c := Run(cfg, EMPTY_SYSTEM, steps).c;
             DeleteFree(steps) && n in c.validations && c.validations[n].Phase().Terminal()
    ensures var c := Run(cfg, EMPTY_SYSTEM, steps).c; Plainly(cfg, c, n, c.validations[n])
  {
    hide Run, Plainly, JobsOk, ValidationOk, Shape, OutcomeOk, OutcomesOk;
    PromisesHold(cfg, steps, n);
    OutcomesHold(cfg, steps);
    StoredOutcome(cfg, Run(cfg, EMPTY_SYSTEM, steps), n);
    FinishedMeans(cfg, Run(cfg, EMPTY_SYSTEM, steps).c, n);
  }

  lemma StoredOutcome(cfg: Config, s: System, n: string)
    requires OutcomesOk(cfg, s) && n in s.c.validations
    ensures OutcomeOk(cfg, s.c, n, s.c.validations[n])
  {
    hide OutcomeOk;
  }

  lemma FinishedMeans(cfg: Config, c: Cluster, n: string)
    requires n in c.validations && c.validations[n].Phase().Terminal()
    requires var v := c.validations[n];
             JobsOk(cfg, c) && ValidationOk(cfg, c, n, v) && Shape(n, v) && OutcomeOk(cfg, c, n, v)
    ensures Plainly(cfg, c, n, c.validations[n])
  {
    hide Plainly, JobsOk, SummariesFit, GateFits, Canonical, FindingsOf, AllThere, JudgedBy, SummedUp;
    JudgementMeans(cfg, c, n, c.validations[n]);
  }

  // ... and its summaries name each of its children once, as attested, with as many findings as it reports
  lemma SummariesInPlainWords(cfg: Config, steps: seq<Step>, n: string)
    requires var c := Run(cfg, EMPTY_SYSTEM, steps).c;
             DeleteFree(steps) && n in c.validations && c.validations[n].Phase().Rank() >= 3
    ensures var c := Run(cfg, EMPTY_SYSTEM, steps).c;
            var ss := c.validations[n].Status().scanJobs;
            && (forall i, j | 0 <= i < j < |ss| :: ss[i].name != ss[j].name)
            && (forall k :: (exists i :: 0 <= i < |ss| && ss[i].name == k) <==>
                              k in c.scanJobs && c.scanJobs[k].parent == n)
            && forall i | 0 <= i < |ss| ::
                 && ss[i].name in c.scanJobs
                 && var j := c.scanJobs[ss[i].name];
                    && ss[i].scanner == j.scanner && ss[i].phase == Attested
                    && ss[i].findingsCount == |j.Findings()|
  {
    hide Run, JobsOk, ValidationOk, Shape, OutcomeOk, OutcomesOk, AllAttested, SummedUp;
    PromisesHold(cfg, steps, n);
    OutcomesHold(cfg, steps);
    var c := Run(cfg, EMPTY_SYSTEM, steps).c;
    StoredOutcome(cfg, Run(cfg, EMPTY_SYSTEM, steps), n);
    LateIsSummedUp(cfg, c, n, c.validations[n]);
    PromiseMeansAttested(cfg, c, n, c.validations[n]);
    NamedByTheSummaries(cfg, c, n, c.validations[n]);
  }

  lemma NamedByTheSummaries(cfg: Config, c: Cluster, n: string, v: Validation)
    requires JobsOk(cfg, c) && AllAttested(cfg, c.scanJobs, n) && SummedUp(c, n, v)
    ensures var ss := v.Status().scanJobs;
            && (forall i, j | 0 <= i < j < |ss| :: ss[i].name != ss[j].name)
            && (forall k :: (exists i :: 0 <= i < |ss| && ss[i].name == k) <==>
                              k in c.scanJobs && c.scanJobs[k].parent == n)
            && forall i | 0 <= i < |ss| ::
                 && ss[i].name in c.scanJobs
                 && var j := c.scanJobs[ss[i].name];
                    && ss[i].scanner == j.scanner && ss[i].phase == Attested
                    && ss[i].findingsCount == |j.Findings()|
  {
    hide JobsOk, AllAttested, Summaries;
    var listing :| Lists(c, n, listing) && v.Status().scanJobs == Summaries(c, listing);
    SummedUpMeans(cfg, c, n, listing);
  }

  lemma SummedUpMeans(cfg: Config, c: Cluster, n: string, listing: seq<string>)
    requires JobsOk(cfg, c) && AllAttested(cfg, c.scanJobs, n) && Lists(c, n, listing)
    ensures var ss := Summaries(c, listing);
            && |ss| == |listing|
            && forall i | 0 <= i < |ss| ::
                 && ss[i].name == listing[i] && listing[i] in c.scanJobs
                 && var j := c.scanJobs[listing[i]];
                    && ss[i].scanner == j.scanner && ss[i].phase == Attested
                    && ss[i].findingsCount == |j.Findings()|
  {
    hide Names, RequiredScanners, ScanJobName, StampedBy;
    ListingIsTheNames(cfg, c, n, listing);
    forall i | 0 <= i < |listing| ensures JobOk(cfg, listing[i], c.scanJobs[listing[i]]) {
    }
  }
}
