/** The children of one validation: which scan jobs it must have, what they found, and what the gate makes of it. */
module ChildFindings {
  import opened Wrappers
  import opened Crds
  import opened StableOrder
  import opened Encodings
  import opened Evidence
  import opened Actions
  import opened Security
  import opened SecurityLaws
  import opened Pipeline

  // ---- The required scanners ----

  lemma {:induction false} DifferenceIsDistinct<T>(order: seq<T>, required: set<T>, present: set<T>)
    requires Distinct(order)
    ensures Distinct(Difference(order, required, present))
  {
    if order != [] {
      DifferenceIsDistinct(order[1..], required, present);
      DifferenceMembers(order[1..], required, present);
      assert order[0] !in order[1..];
    }
  }

  lemma AllScannersDistinct()
    ensures Distinct(ALL_SCANNERS)
  {
    assert forall i | 0 <= i < |ALL_SCANNERS| :: ScannerRank(ALL_SCANNERS[i]) == i;
  }

  lemma RequiredScannersFacts(cfg: Config)
    ensures Distinct(RequiredScanners(cfg))
    ensures forall s :: s in RequiredScanners(cfg) <==> s in SpecFor(cfg).requiredScanners
    ensures Trivy in RequiredScanners(cfg)
  {
    AllScannersDistinct();
    OrdersAreComplete();
    DifferenceIsDistinct(ALL_SCANNERS, SpecFor(cfg).requiredScanners, {});
    DifferenceMembers(ALL_SCANNERS, SpecFor(cfg).requiredScanners, {});
  }

  // ---- Which scanners run, by the deployment flags ----

  predicate Runs(cfg: Config, s: Scanner) {
    || s in {Trivy, Grype, Syft, Trufflehog, KubeBench, KubeHunter, Polaris, StigCisValidator}
    || (s in {Semgrep, KubeLinter} && cfg.source)
    || (s == Zap && cfg.dast)
  }

  // Eight always, two with the source at hand, one with a live target, in the order of their declaration
  function ScannersByFlags(cfg: Config): seq<Scanner> {
    [Trivy, Grype, Syft, Trufflehog] + (if cfg.source then [Semgrep, KubeLinter] else []) +
    [KubeBench, KubeHunter, Polaris, StigCisValidator] + if cfg.dast then [Zap] else []
  }

  lemma {:induction false} DifferenceConcat<T>(a: seq<T>, b: seq<T>, required: set<T>, present: set<T>)
    ensures Difference(a + b, required, present) == Difference(a, required, present) + Difference(b, required, present)
  {
    if a == [] {
      assert a + b == b;
    } else {
      assert (a + b)[1..] == a[1..] + b;
      DifferenceConcat(a[1..], b, required, present);
    }
  }

  lemma {:induction false} DifferenceAllOrNothing<T>(order: seq<T>, required: set<T>)
    ensures (forall x | x in order :: x in required) ==> Difference(order, required, {}) == order
    ensures (forall x | x in order :: x !in required) ==> Difference(order, required, {}) == []
  {
    if order != [] {
      DifferenceAllOrNothing(order[1..], required);
      assert order == [order[0]] + order[1..];
      assert forall x :: x in order <==> x == order[0] || x in order[1..];
    }
  }

  lemma RequiredAreThoseThatRun(cfg: Config, s: Scanner)
    ensures s in SpecFor(cfg).requiredScanners <==> Runs(cfg, s)
  {
  }

  lemma DifferenceOfParts<T>(a: seq<T>, b: seq<T>, c: seq<T>, d: seq<T>, e: seq<T>, required: set<T>)
    ensures Difference(a + b + c + d + e, required, {}) ==
            Difference(a, required, {}) + Difference(b, required, {}) + Difference(c, required, {}) +
            Difference(d, required, {}) + Difference(e, required, {})
  {
    hide Difference;
    DifferenceConcat(a + b + c + d, e, required, {});
    DifferenceConcat(a + b + c, d, required, {});
    DifferenceConcat(a + b, c, required, {});
    DifferenceConcat(a, b, required, {});
  }

  const ALWAYS_ON: seq<Scanner> := [Trivy, Grype, Syft, Trufflehog]
  const ON_SOURCE: seq<Scanner> := [Semgrep, KubeLinter]
  const ON_THE_CLUSTER: seq<Scanner> := [KubeBench, KubeHunter, Polaris, StigCisValidator]
  const COMMERCIAL: seq<Scanner> := [Snyk, DockerScout, JfrogXray, Wiz, PrismaCloud, BurpEnterprise, Codeql]

  lemma ScannersInParts()
    ensures ALL_SCANNERS == ALWAYS_ON + ON_SOURCE + ON_THE_CLUSTER + [Zap] + COMMERCIAL
  {
  }

  lemma PickedParts(cfg: Config, required: set<Scanner>)
    requires forall s :: s in required <==> Runs(cfg, s)
    ensures Difference(ALWAYS_ON, required, {}) == ALWAYS_ON
    ensures Difference(ON_SOURCE, required, {}) == if cfg.source then ON_SOURCE else []
    ensures Difference(ON_THE_CLUSTER, required, {}) == ON_THE_CLUSTER
    ensures Difference([Zap], required, {}) == if cfg.dast then [Zap] else []
    ensures Difference(COMMERCIAL, required, {}) == []
  {
    hide Difference;
    DifferenceAllOrNothing(ALWAYS_ON, required);
    DifferenceAllOrNothing(ON_SOURCE, required);
    DifferenceAllOrNothing(ON_THE_CLUSTER, required);
    DifferenceAllOrNothing([Zap], required);
    DifferenceAllOrNothing(COMMERCIAL, required);
  }

  lemma RequiredScannersByFlags(cfg: Config)
    ensures RequiredScanners(cfg) == ScannersByFlags(cfg)
  {
    var required := SpecFor(cfg).requiredScanners;
    forall s ensures s in required <==> Runs(cfg, s) { RequiredAreThoseThatRun(cfg, s); }
    hide SpecFor, Difference, Runs, ALL_SCANNERS, ALWAYS_ON, ON_SOURCE, ON_THE_CLUSTER, COMMERCIAL;
    PickedParts(cfg, required);
    ScannersInParts();
    DifferenceOfParts(ALWAYS_ON, ON_SOURCE, ON_THE_CLUSTER, [Zap], COMMERCIAL, required);
    var picked := ALWAYS_ON + (if cfg.source then ON_SOURCE else []) + ON_THE_CLUSTER + if cfg.dast then [Zap] else [];
    assert RequiredScanners(cfg) == picked + [];
    assert picked == ScannersByFlags(cfg) by { PartsAreThese(cfg); }
  }

  lemma PartsAreThese(cfg: Config)
    ensures ScannersByFlags(cfg) ==
      ALWAYS_ON + (if cfg.source then ON_SOURCE else []) + ON_THE_CLUSTER + if cfg.dast then [Zap] else []
  {
  }

  lemma RequiredIffRuns(cfg: Config, s: Scanner)
    ensures s in RequiredScanners(cfg) <==> Runs(cfg, s)
  {
    hide RequiredScanners, Runs;
    RequiredScannersFacts(cfg);
    RequiredAreThoseThatRun(cfg, s);
  }

  // The names of the scan jobs a validation must have
  function Names(cfg: Config, n: string): seq<string> {
    var scanners := RequiredScanners(cfg);
    seq(|scanners|, i requires 0 <= i < |scanners| => ScanJobName(scanners[i], n))
  }

  lemma NamesAreDistinct(cfg: Config, n: string)
    ensures Distinct(Names(cfg, n)) && Names(cfg, n) != []
    ensures forall s | s in RequiredScanners(cfg) :: ScanJobName(s, n) in Names(cfg, n)
  {
    hide RequiredScanners, ScanJobName;
    RequiredScannersFacts(cfg);
    var scanners, names := RequiredScanners(cfg), Names(cfg, n);
    forall i, j | 0 <= i < j < |names| ensures names[i] != names[j] {
      if names[i] == names[j] {
        ScanJobNameIsInjective(scanners[i], n, scanners[j], n);
      }
    }
    forall s | s in scanners ensures ScanJobName(s, n) in names {
      var i :| 0 <= i < |scanners| && scanners[i] == s;
      assert names[i] == ScanJobName(s, n);
    }
  }

  // ---- Scan jobs that only the controllers made and stepped ----

  predicate JobOk(cfg: Config, k: string, j: ScanJob) {
    && j.scanner in RequiredScanners(cfg)
    && k == ScanJobName(j.scanner, j.parent)
    && StampedBy(j.scanner, j.Findings())
    && (j.status.Some? ==>
          var st := j.status.value;
          && (st.phase == Some(Forking) || st.phase == Some(Execing) || st.phase == Some(Running) ||
            st.phase == Some(Attested))
          && st.findingsCount == |st.findings|
          && (if st.phase == Some(Attested) then st.attestation == Some(cfg.blake3(st.findings))
            else st.findings == [] && st.attestation.None?))
  }

  ghost predicate JobsOk(cfg: Config, c: Cluster) {
    forall k | k in c.scanJobs :: JobOk(cfg, k, c.scanJobs[k]) && c.scanJobs[k].parent in c.validations
  }

  ghost predicate AllThere(cfg: Config, jobs: map<string, ScanJob>, n: string) {
    forall k | k in Names(cfg, n) :: k in jobs
  }

  ghost predicate AllAttested(cfg: Config, jobs: map<string, ScanJob>, n: string) {
    forall k | k in Names(cfg, n) :: k in jobs && jobs[k].Phase() == Some(Attested)
  }

  // A required name names a child of that validation, and every child has a required name
  lemma ChildrenHaveTheNames(cfg: Config, c: Cluster, n: string, k: string)
    requires JobsOk(cfg, c) && k in c.scanJobs
    ensures c.scanJobs[k].parent == n <==> k in Names(cfg, n)
  {
    hide RequiredScanners, ScanJobName;
    NamesAreDistinct(cfg, n);
    var j := c.scanJobs[k];
    if k in Names(cfg, n) {
      var i :| 0 <= i < |Names(cfg, n)| && Names(cfg, n)[i] == k;
      ScanJobNameIsInjective(j.scanner, j.parent, RequiredScanners(cfg)[i], n);
    }
  }

  lemma ListingIsTheNames(cfg: Config, c: Cluster, n: string, listing: seq<string>)
    requires JobsOk(cfg, c) && AllThere(cfg, c.scanJobs, n) && Lists(c, n, listing)
    ensures Distinct(listing) && forall k :: k in listing <==> k in Names(cfg, n)
  {
    hide Names, JobOk;
    forall k ensures k in listing <==> k in Names(cfg, n) {
      if k in c.scanJobs {
        ChildrenHaveTheNames(cfg, c, n, k);
      }
    }
  }

  // ---- Their findings ----

  function Blocks(jobs: map<string, ScanJob>, n: string): map<string, seq<Finding>> {
    map k | k in jobs && jobs[k].parent == n :: jobs[k].Findings()
  }

  // The findings of all required children, scanner by scanner
  function FindingsOf(cfg: Config, jobs: map<string, ScanJob>, n: string): seq<Finding> {
    Concat(Blocks(jobs, n), Names(cfg, n))
  }

  lemma {:induction false} ChildrenFindings(c: Cluster, n: string, listing: seq<string>)
    requires forall k | k in listing :: k in c.scanJobs && c.scanJobs[k].parent == n
    ensures AllFindings(Children(c, listing)) == Concat(Blocks(c.scanJobs, n), listing)
  {
    if listing != [] {
      assert forall k | k in listing[1..] :: k in listing;
      assert Children(c, listing)[1..] == Children(c, listing[1..]);
      assert listing[0] in listing;
      ChildrenFindings(c, n, listing[1..]);
    }
  }

  lemma BlocksAreStamped(cfg: Config, c: Cluster, n: string)
    requires JobsOk(cfg, c)
    ensures StampedBlocks(Blocks(c.scanJobs, n), map k | k in c.scanJobs :: c.scanJobs[k].scanner)
  {
  }

  // In whatever order the children are listed: the same canonical findings, as many of them, the same members
  lemma ListingIsIrrelevant(cfg: Config, c: Cluster, n: string, listing: seq<string>)
    requires JobsOk(cfg, c) && AllThere(cfg, c.scanJobs, n) && Lists(c, n, listing)
    ensures var fs := AllFindings(Children(c, listing));
            && Canonical(fs) == Canonical(FindingsOf(cfg, c.scanJobs, n))
            && |fs| == |FindingsOf(cfg, c.scanJobs, n)|
            && forall f :: f in fs <==> f in FindingsOf(cfg, c.scanJobs, n)
  {
    hide Names, JobOk, AllThere;
    ListingIsTheNames(cfg, c, n, listing);
    NamesAreDistinct(cfg, n);
    ChildrenFindings(c, n, listing);
    var blocks := Blocks(c.scanJobs, n);
    BlocksAreStamped(cfg, c, n);
    CanonicalIgnoresListing(blocks, map k | k in c.scanJobs :: c.scanJobs[k].scanner, listing, Names(cfg, n));
    ConcatMembers(blocks, listing);
    ConcatMembers(blocks, Names(cfg, n));
  }

  lemma {:induction false} ConcatAgrees<T>(a: map<string, seq<T>>, b: map<string, seq<T>>, ks: seq<string>)
    requires forall k | k in ks :: (k in a <==> k in b) && (k in a ==> a[k] == b[k])
    ensures Concat(a, ks) == Concat(b, ks)
  {
    if ks != [] {
      assert ks[0] in ks && forall k | k in ks[1..] :: k in ks;
      ConcatAgrees(a, b, ks[1..]);
    }
  }

  // ---- Summaries ----

  function SumCounts(ss: seq<Summary>): nat {
    if ss == [] then 0 else ss[0].findingsCount + SumCounts(ss[1..])
  }

  lemma {:induction false} SummariesCountTheFindings(cfg: Config, c: Cluster, listing: seq<string>)
    requires JobsOk(cfg, c) && forall k | k in listing :: k in c.scanJobs
    ensures SumCounts(Summaries(c, listing)) == |AllFindings(Children(c, listing))|
  {
    hide RequiredScanners, ScanJobName, StampedBy;
    if listing != [] {
      assert forall k | k in listing[1..] :: k in listing;
      assert listing[0] in listing && JobOk(cfg, listing[0], c.scanJobs[listing[0]]);
      assert Children(c, listing)[1..] == Children(c, listing[1..]);
      assert Summaries(c, listing)[1..] == Summaries(c, listing[1..]);
      SummariesCountTheFindings(cfg, c, listing[1..]);
    }
  }

  // A scanner has reported when a child of its kind is listed, whatever became of it
  lemma ReportedAreListed(c: Cluster, n: string, listing: seq<string>, s: Scanner)
    requires Lists(c, n, listing)
    ensures s in Reported(Children(c, listing)) <==>
              exists k :: k in c.scanJobs && c.scanJobs[k].parent == n && c.scanJobs[k].scanner == s
  {
    if k :| k in c.scanJobs && c.scanJobs[k].parent == n && c.scanJobs[k].scanner == s {
      var i :| 0 <= i < |listing| && listing[i] == k;
      assert Children(c, listing)[i] == c.scanJobs[k];
    }
    if s in Reported(Children(c, listing)) {
      var j :| j in Children(c, listing) && j.scanner == s;
      var i :| 0 <= i < |listing| && Children(c, listing)[i] == j;
      assert listing[i] in c.scanJobs;
    }
  }

  // ---- The gate, seen from the findings ----

  predicate LiveCritical(fs: seq<Finding>) {
    exists f :: f in fs && Live(f) && f.severity == CriticalFinding
  }

  predicate AgedHigh(cfg: Config, fs: seq<Finding>, now: Time) {
    exists f :: f in fs && Breaches(SpecFor(cfg), now, f, HighFinding)
  }

  // With every required scanner reporting, the severity is decided by the findings and the deployment flag
  function GateSeverity(cfg: Config, fs: seq<Finding>, now: Time): Severity {
    if LiveCritical(fs) then Critical
    else if !cfg.scanOnly || AgedHigh(cfg, fs, now) then Functional
    else Cosmetic
  }

  predicate GateFits(cfg: Config, fs: seq<Finding>, g: GateDecision) {
    && g.severity == GateSeverity(cfg, fs, g.decidedAt)
    && g.verdict == (if LiveCritical(fs) then VerdictFailed else VerdictPassed)
    && (cfg.scanOnly ==> g.action.None?)
  }

  lemma GateSeverityOfChildren(cfg: Config, v: Validation, children: seq<ScanJob>, now: Time)
    ensures GateOf(cfg, v, children, now).severity ==
            if LiveCritical(AllFindings(children)) then Critical
            else if !cfg.scanOnly || AgedHigh(cfg, AllFindings(children), now)
                    || !(SpecFor(cfg).requiredScanners <= Reported(children)) then Functional
            else Cosmetic
  {
    hide AllFindings, Classify, DigestDrift, Reported, DecideOf;
    var obs := Snapshot(v, children, now).imageDigests[0];
    DiffOfOne(SpecFor(cfg), now, obs);
    ClassifyOneDigest(SpecFor(cfg), now, obs);
    assert SpecFor(cfg).requiredAttestations <= {} <==> cfg.scanOnly by {
      assert CartorioActive in DEFAULT_SPEC.requiredAttestations;
    }
  }

  // For every set of children and every setting of the flags: the run fails exactly on a live critical
  // finding and passes otherwise, is never quarantined, and never mirrors to Harbor
  lemma GateVerdict(cfg: Config, v: Validation, children: seq<ScanJob>, now: Time)
    ensures var g := GateOf(cfg, v, children, now);
            && g.verdict == (if LiveCritical(AllFindings(children)) then VerdictFailed else VerdictPassed)
            && (g.verdict == VerdictFailed <==> g.severity == Critical)
            && (g.action.Some? ==>
                  && !cfg.scanOnly && g.action.value.Compose?
                  && forall a | a in g.action.value.steps :: a.ReconcilerApply? ==> a.reconciler != HarborMirror)
  {
    hide AllFindings, Classify, DiffOf, CriticalActions, AttestationActions, BumpActions, Reported, Snapshot;
    GateSeverityOfChildren(cfg, v, children, now);
    var snapshot := Snapshot(v, children, now);
    NoHarborActions(DiffOf(SpecFor(cfg), snapshot.observedAt, snapshot.imageDigests));
  }

  lemma NoHarborActions(d: Drift)
    ensures forall a | a in CriticalActions(d.criticalCves) :: a.ReconcilerApply? ==> a.reconciler != HarborMirror
    ensures forall a | a in AttestationActions(d.missingAttestations) + BumpActions(d.agedHighCves) ::
              a.ReconcilerApply? ==> a.reconciler != HarborMirror
  {
    NoHarborInCritical(d.criticalCves);
    NoHarborInAttestations(d.missingAttestations);
    NoHarborInBumps(d.agedHighCves);
  }

  lemma {:induction false} NoHarborInCritical(cves: seq<DigestCveAge>)
    ensures forall a | a in CriticalActions(cves) :: a.ReconcilerApply? ==> a.reconciler != HarborMirror
  {
    if cves != [] { NoHarborInCritical(cves[..|cves| - 1]); }
  }

  lemma {:induction false} NoHarborInAttestations(missing: seq<(string, seq<Attestation>)>)
    ensures forall a | a in AttestationActions(missing) :: a.ReconcilerApply? ==> a.reconciler != HarborMirror
  {
    if missing != [] {
      var n := |missing| - 1;
      NoHarborInAttestations(missing[..n]);
      AttestAllSize(missing[n].0, missing[n].1);
    }
  }

  lemma {:induction false} NoHarborInBumps(cves: seq<DigestCveAge>)
    ensures forall a | a in BumpActions(cves) :: a.ReconcilerApply? ==> a.reconciler != HarborMirror
  {
    if cves != [] { NoHarborInBumps(cves[..|cves| - 1]); }
  }

  lemma GateFitsTheChildren(cfg: Config, v: Validation, children: seq<ScanJob>, now: Time, fs: seq<Finding>)
    requires SpecFor(cfg).requiredScanners <= Reported(children)
    requires forall f :: f in AllFindings(children) <==> f in fs
    ensures GateFits(cfg, fs, GateOf(cfg, v, children, now))
  {
    hide AllFindings, Reported, Breaches;
    GateSeverityOfChildren(cfg, v, children, now);
    GateVerdict(cfg, v, children, now);
    assert LiveCritical(AllFindings(children)) <==> LiveCritical(fs);
    assert AgedHigh(cfg, AllFindings(children), now) <==> AgedHigh(cfg, fs, now);
    hide GateOf;
    assert GateOf(cfg, v, children, now).decidedAt == now by { GateDecidedAt(cfg, v, children, now); }
  }

  lemma GateDecidedAt(cfg: Config, v: Validation, children: seq<ScanJob>, now: Time)
    ensures GateOf(cfg, v, children, now).decidedAt == now
    ensures cfg.scanOnly ==> GateOf(cfg, v, children, now).action.None?
  {
  }

  // Every required scanner has reported when all required children are listed
  lemma AllScannersReported(cfg: Config, c: Cluster, n: string, listing: seq<string>)
    requires JobsOk(cfg, c) && AllThere(cfg, c.scanJobs, n) && Lists(c, n, listing)
    ensures SpecFor(cfg).requiredScanners <= Reported(Children(c, listing))
  {
    hide Names, JobOk, RequiredScanners, SpecFor;
    ListingIsTheNames(cfg, c, n, listing);
    RequiredScannersFacts(cfg);
    NamesAreDistinct(cfg, n);
    forall s | s in SpecFor(cfg).requiredScanners ensures s in Reported(Children(c, listing)) {
      var k := ScanJobName(s, n);
      assert k in listing;
      var i :| 0 <= i < |listing| && listing[i] == k;
      var j := c.scanJobs[k];
      assert Children(c, listing)[i] == j;
      JobScanner(cfg, k, j, s, n);
    }
  }

  lemma JobScanner(cfg: Config, k: string, j: ScanJob, s: Scanner, n: string)
    requires JobOk(cfg, k, j) && k == ScanJobName(s, n)
    ensures j.scanner == s && j.parent == n
  {
    ScanJobNameIsInjective(j.scanner, j.parent, s, n);
  }
}
