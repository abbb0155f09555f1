/** The SecurityController: a snapshot's drift, the drift's severity, the severity's decision. */
module Security {
  import opened Crds
  import opened MergePatch
  import opened Actions

  // ---- Spec and snapshot ----

  datatype Attestation = CartorioActive | CosignSig | SbomSpdx | SlsaAttested

  const ALL_ATTESTATIONS: seq<Attestation> := [CartorioActive, CosignSig, SbomSpdx, SlsaAttested]

  datatype SecuritySpec = SecuritySpec(
    maxHighAgeDays: nat, maxMediumAgeDays: nat,
    requiredAttestations: set<Attestation>, requiredScanners: set<Scanner>,
    harborForwardingEnabled: bool, harborTargetRegistry: string)

  const DEFAULT_SPEC := SecuritySpec(
    15, 90,
    {CartorioActive, CosignSig, SbomSpdx, SlsaAttested},
    {Trivy, Grype, Syft, Trufflehog, Semgrep, KubeLinter, KubeBench, KubeHunter, Polaris, StigCisValidator, Zap},
    false, "registry.secondfront.com")

  const SCAN_ONLY_SPEC := DEFAULT_SPEC.(requiredAttestations := {})

  datatype DigestObservation = DigestObservation(
    digest: string, service: string, cartorioStatus: ArtifactState, findings: seq<Finding>,
    attestationsPresent: set<Attestation>, scannersReported: set<Scanner>)

  datatype SecuritySnapshot = SecuritySnapshot(imageDigests: seq<DigestObservation>, observedAt: Time)

  // ---- Ages ----

  // Division that drops the fraction, as Rust's does for negative operands too
  function TruncDiv(a: int, b: int): int
    requires b > 0
  {
    if a >= 0 then a / b else -((-a) / b)
  }

  const NANOS_PER_SECOND := 1_000_000_000
  const SECONDS_PER_DAY := 86_400

  // Whole days between two instants: whole seconds first, then whole days
  function AgeDays(f: Finding, now: Time): int {
    TruncDiv(TruncDiv(now - f.firstSeen, NANOS_PER_SECOND), SECONDS_PER_DAY)
  }

  // ---- Drift ----

  datatype DigestCveAge = DigestCveAge(digest: string, service: string, cveId: string, scanner: Scanner, ageDays: int)
  datatype DigestService = DigestService(digest: string, service: string)

  datatype Drift = Drift(
    criticalCves: seq<DigestCveAge>, agedHighCves: seq<DigestCveAge>, agedMediumCves: seq<DigestCveAge>,
    missingAttestations: seq<(string, seq<Attestation>)>, missingScanners: seq<(string, seq<Scanner>)>,
    revokedOrQuarantined: seq<string>, allCleanDigests: seq<DigestService>, totalDigestsObserved: nat)

  const NO_DRIFT := Drift([], [], [], [], [], [], [], 0)

  predicate BadStatus(a: ArtifactState) {
    a.ArtifactRevoked? || a.ArtifactQuarantined? || a.ArtifactSuperseded?
  }

  // Required elements that are not there, in the order of the element type
  function Difference<T(==)>(order: seq<T>, required: set<T>, present: set<T>): seq<T> {
    if order == [] then []
    else
      (if order[0] in required && order[0] !in present then [order[0]] else []) +
      Difference(order[1..], required, present)
  }

  // A finding the gate looks at: it names a CVE and no exception covers it
  predicate Live(f: Finding) {
    f.exceptionId.None? && f.cveId.Some?
  }

  predicate Breaches(spec: SecuritySpec, now: Time, f: Finding, severity: FindingSeverity) {
    Live(f) && f.severity == severity &&
    match severity
    case CriticalFinding => true
    case HighFinding => AgeDays(f, now) > spec.maxHighAgeDays
    case MediumFinding => AgeDays(f, now) > spec.maxMediumAgeDays
    case LowFinding => false
  }

  function Breaching(spec: SecuritySpec, now: Time, obs: DigestObservation, fs: seq<Finding>,
    severity: FindingSeverity): seq<DigestCveAge> {
    if fs == [] then []
    else
      var n := |fs| - 1;
      Breaching(spec, now, obs, fs[..n], severity) +
      if Breaches(spec, now, fs[n], severity)
      then [DigestCveAge(obs.digest, obs.service, fs[n].cveId.value, fs[n].scanner, AgeDays(fs[n], now))]
      else []
  }

  predicate NothingBreaches(spec: SecuritySpec, now: Time, fs: seq<Finding>) {
    forall f | f in fs ::
      !Breaches(spec, now, f, CriticalFinding) && !Breaches(spec, now, f, HighFinding) &&
        !Breaches(spec, now, f, MediumFinding)
  }

  predicate Clean(spec: SecuritySpec, now: Time, obs: DigestObservation) {
    && !BadStatus(obs.cartorioStatus)
    && Difference(ALL_ATTESTATIONS, spec.requiredAttestations, obs.attestationsPresent) == []
    && Difference(ALL_SCANNERS, spec.requiredScanners, obs.scannersReported) == []
    && NothingBreaches(spec, now, obs.findings)
  }

  function DigestDrift(spec: SecuritySpec, now: Time, obs: DigestObservation): Drift {
    var atts := Difference(ALL_ATTESTATIONS, spec.requiredAttestations, obs.attestationsPresent);
    var scanners := Difference(ALL_SCANNERS, spec.requiredScanners, obs.scannersReported);
    Drift(
      Breaching(spec, now, obs, obs.findings, CriticalFinding),
      Breaching(spec, now, obs, obs.findings, HighFinding),
      Breaching(spec, now, obs, obs.findings, MediumFinding),
      if atts == [] then [] else [(obs.digest, atts)],
      if scanners == [] then [] else [(obs.digest, scanners)],
      if BadStatus(obs.cartorioStatus) then [obs.digest] else [],
      if Clean(spec, now, obs) && obs.cartorioStatus == ArtifactActive
        then [DigestService(obs.digest, obs.service)] else [],
      1)
  }

  function Join(a: Drift, b: Drift): Drift {
    Drift(a.criticalCves + b.criticalCves, a.agedHighCves + b.agedHighCves, a.agedMediumCves + b.agedMediumCves,
          a.missingAttestations + b.missingAttestations, a.missingScanners + b.missingScanners,
          a.revokedOrQuarantined + b.revokedOrQuarantined, a.allCleanDigests + b.allCleanDigests,
          a.totalDigestsObserved + b.totalDigestsObserved)
  }

  function DiffOf(spec: SecuritySpec, now: Time, digests: seq<DigestObservation>): (d: Drift)
    ensures d.totalDigestsObserved == |digests|
  {
    if digests == [] then NO_DRIFT
    else
      var n := |digests| - 1;
      Join(DiffOf(spec, now, digests[..n]), DigestDrift(spec, now, digests[n]))
  }

  method Diff(spec: SecuritySpec, snapshot: SecuritySnapshot) returns (drift: Drift)
    ensures drift == DiffOf(spec, snapshot.observedAt, snapshot.imageDigests)
  {
    var now := snapshot.observedAt;
    var ds := snapshot.imageDigests;
    drift := NO_DRIFT.(totalDigestsObserved := |ds|);
    for i := 0 to |ds|
      invariant SameButTotal(drift, DiffOf(spec, now, ds[..i]))
      invariant drift.totalDigestsObserved == |ds|
    {
      drift := DiffOne(spec, now, ds[i], drift);
      DiffOfSnoc(spec, now, ds, i);
    }
    assert ds[..|ds|] == ds;
  }

  predicate SameButTotal(a: Drift, b: Drift) {
    a == b.(totalDigestsObserved := a.totalDigestsObserved)
  }

  lemma DiffOfSnoc(spec: SecuritySpec, now: Time, ds: seq<DigestObservation>, i: nat)
    requires i < |ds|
    ensures DiffOf(spec, now, ds[..i + 1]) == Join(DiffOf(spec, now, ds[..i]), DigestDrift(spec, now, ds[i]))
  {
    assert ds[..i + 1][..i] == ds[..i];
  }

  // One round of the outer loop: everything one digest adds to the drift
  method DiffOne(spec: SecuritySpec, now: Time, obs: DigestObservation, before: Drift) returns (drift: Drift)
    ensures SameButTotal(drift, Join(before, DigestDrift(spec, now, obs)))
    ensures drift.totalDigestsObserved == before.totalDigestsObserved
  {
    drift := before;
    var digestClean := true;
    if BadStatus(obs.cartorioStatus) {
      drift := drift.(revokedOrQuarantined := drift.revokedOrQuarantined + [obs.digest]);
      digestClean := false;
    }
    var missingAtts := Difference(ALL_ATTESTATIONS, spec.requiredAttestations, obs.attestationsPresent);
    if missingAtts != [] {
      drift := drift.(missingAttestations := drift.missingAttestations + [(obs.digest, missingAtts)]);
      digestClean := false;
    }
    var missingScanners := Difference(ALL_SCANNERS, spec.requiredScanners, obs.scannersReported);
    if missingScanners != [] {
      drift := drift.(missingScanners := drift.missingScanners + [(obs.digest, missingScanners)]);
      digestClean := false;
    }
    var critical, high, medium, quiet := JudgeFindings(spec, now, obs);
    drift := drift.(criticalCves := drift.criticalCves + critical, agedHighCves := drift.agedHighCves + high,
                    agedMediumCves := drift.agedMediumCves + medium);
    digestClean := digestClean && quiet;
    if digestClean && obs.cartorioStatus == ArtifactActive {
      drift := drift.(allCleanDigests := drift.allCleanDigests + [DigestService(obs.digest, obs.service)]);
    }
  }

  // The inner loop over one digest's findings
  method JudgeFindings(spec: SecuritySpec, now: Time, obs: DigestObservation)
    returns (critical: seq<DigestCveAge>, high: seq<DigestCveAge>, medium: seq<DigestCveAge>, quiet: bool)
    ensures critical == Breaching(spec, now, obs, obs.findings, CriticalFinding)
    ensures high == Breaching(spec, now, obs, obs.findings, HighFinding)
    ensures medium == Breaching(spec, now, obs, obs.findings, MediumFinding)
    ensures quiet <==> NothingBreaches(spec, now, obs.findings)
  {
    critical, high, medium, quiet := [], [], [], true;
    var fs := obs.findings;
    for j := 0 to |fs|
      invariant critical == Breaching(spec, now, obs, fs[..j], CriticalFinding)
      invariant high == Breaching(spec, now, obs, fs[..j], HighFinding)
      invariant medium == Breaching(spec, now, obs, fs[..j], MediumFinding)
      invariant quiet <==> NothingBreaches(spec, now, fs[..j])
    {
      var f := fs[j];
      BreachingSnoc(spec, now, obs, fs, j, CriticalFinding);
      BreachingSnoc(spec, now, obs, fs, j, HighFinding);
      BreachingSnoc(spec, now, obs, fs, j, MediumFinding);
      QuietSnoc(spec, now, fs, j);
      if f.exceptionId.Some? || f.cveId.None? {
        continue;
      }
      var age := AgeDays(f, now);
      var entry := DigestCveAge(obs.digest, obs.service, f.cveId.value, f.scanner, age);
      match f.severity {
        case CriticalFinding =>
          critical, quiet := critical + [entry], false;
        case HighFinding =>
          if age > spec.maxHighAgeDays {
            high, quiet := high + [entry], false;
          }
        case MediumFinding =>
          if age > spec.maxMediumAgeDays {
            medium, quiet := medium + [entry], false;
          }
        case LowFinding =>
      }
    }
    assert fs[..|fs|] == fs;
  }

  lemma BreachingSnoc(spec: SecuritySpec, now: Time, obs: DigestObservation, fs: seq<Finding>, j: nat,
    severity: FindingSeverity)
    requires j < |fs|
    ensures Breaching(spec, now, obs, fs[..j + 1], severity) == Breaching(spec, now, obs, fs[..j], severity) +
            if Breaches(spec, now, fs[j], severity)
            then [DigestCveAge(obs.digest, obs.service, fs[j].cveId.value, fs[j].scanner, AgeDays(fs[j], now))]
            else []
  {
    assert fs[..j + 1][..j] == fs[..j];
  }

  lemma QuietSnoc(spec: SecuritySpec, now: Time, fs: seq<Finding>, j: nat)
    requires j < |fs|
    ensures NothingBreaches(spec, now, fs[..j + 1]) <==>
      NothingBreaches(spec, now, fs[..j]) && NothingBreaches(spec, now, [fs[j]])
  {
    assert fs[..j + 1] == fs[..j] + [fs[j]];
    assert forall g :: g in fs[..j + 1] <==> g in fs[..j] || g in [fs[j]];
  }

  // ---- Severity ----

  function Classify(d: Drift): Severity {
    if d.criticalCves != [] || d.revokedOrQuarantined != [] then Critical
    else if d.agedHighCves != [] || d.missingAttestations != [] || d.missingScanners != [] then Functional
    else Cosmetic
  }

  // ---- Decision ----

  function ScannerDebug(s: Scanner): string {
    match s
    case Trivy => "Trivy" case Grype => "Grype" case Syft => "Syft" case Trufflehog => "Trufflehog"
    case Semgrep => "Semgrep" case KubeLinter => "KubeLinter" case KubeBench => "KubeBench"
    case KubeHunter => "KubeHunter" case Polaris => "Polaris" case StigCisValidator => "StigCisValidator"
    case Zap => "Zap" case Snyk => "Snyk" case DockerScout => "DockerScout" case JfrogXray => "JfrogXray"
    case Wiz => "Wiz" case PrismaCloud => "PrismaCloud" case BurpEnterprise => "BurpEnterprise" case Codeql => "Codeql"
  }

  function RevokeDigest(c: DigestCveAge): TypedAction {
    ReconcilerApply(CartorioAdmit, Obj(map[
      "digest" := Str(c.digest), "transition" := Str("Revoked"),
      "reason" := Str("Critical CVE " + c.cveId + " via " + ScannerDebug(c.scanner))]))
  }

  function RevokeTag(c: DigestCveAge): TypedAction {
    ReconcilerApply(GhcrTagRevoke, Obj(map[
      "repo" := Str("akeylesslabs/akeyless-" + c.service), "tag" := Str("release"), "reason" := Str(c.cveId)]))
  }

  function PinPrevious(c: DigestCveAge): TypedAction {
    FluxCommit("helmworks-akeyless/architectures/fedramp-high.yaml", Obj(map[
      "service" := Str(c.service), "pin_to_previous_known_good" := Bool(true),
      "reason" := Str("Critical CVE " + c.cveId)]))
  }

  function CriticalActions(cves: seq<DigestCveAge>): seq<TypedAction> {
    if cves == [] then []
    else
      var n := |cves| - 1;
      CriticalActions(cves[..n]) + [RevokeDigest(cves[n]), RevokeTag(cves[n]), PinPrevious(cves[n])]
  }

  function AttestationReconciler(a: Attestation): ReconcilerKind {
    match a
    case CartorioActive => CartorioAdmit
    case CosignSig => CosignAttest
    case SbomSpdx => SbomGenerate
    case SlsaAttested => SlsaProvenance
  }

  function Attest(digest: string, a: Attestation): TypedAction {
    ReconcilerApply(AttestationReconciler(a), Obj(map["digest" := Str(digest), "force" := Bool(true)]))
  }

  function AttestAll(digest: string, missing: seq<Attestation>): seq<TypedAction> {
    if missing == [] then []
    else var n := |missing| - 1; AttestAll(digest, missing[..n]) + [Attest(digest, missing[n])]
  }

  function AttestationActions(missing: seq<(string, seq<Attestation>)>): seq<TypedAction> {
    if missing == [] then []
    else
      var n := |missing| - 1;
      AttestationActions(missing[..n]) + AttestAll(missing[n].0, missing[n].1)
  }

  function BumpBaseImage(h: DigestCveAge): TypedAction {
    ReconcilerApply(RenovateBaseImageBump, Obj(map[
      "cve_id" := Str(h.cveId), "image_digest" := Str(h.digest),
        "target_repo" := Str("akeylesslabs/akeyless-main-repo")]))
  }

  function BumpActions(cves: seq<DigestCveAge>): seq<TypedAction> {
    if cves == [] then [] else var n := |cves| - 1; BumpActions(cves[..n]) + [BumpBaseImage(cves[n])]
  }

  function Mirror(spec: SecuritySpec, d: DigestService): TypedAction {
    ReconcilerApply(HarborMirror, Obj(map[
      "source_repo" := Str("akeylesslabs/akeyless-" + d.service), "source_digest" := Str(d.digest),
      "target_registry" := Str(spec.harborTargetRegistry), "target_project" := Str("akeyless"),
      "preserve_digest" := Bool(true)]))
  }

  function MirrorActions(spec: SecuritySpec, ds: seq<DigestService>): seq<TypedAction> {
    seq(|ds|, i requires 0 <= i < |ds| => Mirror(spec, ds[i]))
  }

  function DecideOf(spec: SecuritySpec, severity: Severity, d: Drift): Decision {
    match severity
    case Critical => AutoCorrect(Compose(CriticalActions(d.criticalCves)))
    case Functional =>
      var actions := AttestationActions(d.missingAttestations) + BumpActions(d.agedHighCves);
      if actions == [] then Alert else AutoCorrect(Compose(actions))
    case Cosmetic =>
      if !spec.harborForwardingEnabled || d.allCleanDigests == [] then NoAction
      else AutoCorrect(Compose(MirrorActions(spec, d.allCleanDigests)))
  }

  method Decide(spec: SecuritySpec, severity: Severity, d: Drift) returns (r: Decision)
    ensures r == DecideOf(spec, severity, d)
  {
    match severity {
      case Critical =>
        var actions := RevokeCritical(d.criticalCves);
        return AutoCorrect(Compose(actions));
      case Functional =>
        var actions := Remediate(d.missingAttestations, d.agedHighCves);
        return if actions == [] then Alert else AutoCorrect(Compose(actions));
      case Cosmetic =>
        if !spec.harborForwardingEnabled || d.allCleanDigests == [] {
          return NoAction;
        }
        return AutoCorrect(Compose(MirrorActions(spec, d.allCleanDigests)));
    }
  }

  method RevokeCritical(cves: seq<DigestCveAge>) returns (actions: seq<TypedAction>)
    ensures actions == CriticalActions(cves)
  {
    actions := [];
    for i := 0 to |cves|
      invariant actions == CriticalActions(cves[..i])
    {
      ghost var before := actions;
      assert cves[..i + 1][..i] == cves[..i];
      actions := actions + [RevokeDigest(cves[i])];
      actions := actions + [RevokeTag(cves[i])];
      actions := actions + [PinPrevious(cves[i])];
      assert actions == before + [RevokeDigest(cves[i]), RevokeTag(cves[i]), PinPrevious(cves[i])];
    }
    assert cves[..|cves|] == cves;
  }

  method Remediate(missingAttestations: seq<(string, seq<Attestation>)>, agedHigh: seq<DigestCveAge>)
    returns (actions: seq<TypedAction>)
    ensures actions == AttestationActions(missingAttestations) + BumpActions(agedHigh)
  {
    actions := [];
    for i := 0 to |missingAttestations|
      invariant actions == AttestationActions(missingAttestations[..i])
    {
      var (digest, missing) := missingAttestations[i];
      assert missingAttestations[..i + 1][..i] == missingAttestations[..i];
      ghost var before := actions;
      for j := 0 to |missing|
        invariant actions == before + AttestAll(digest, missing[..j])
      {
        assert missing[..j + 1][..j] == missing[..j];
        actions := actions + [Attest(digest, missing[j])];
      }
      assert missing[..|missing|] == missing;
    }
    assert missingAttestations[..|missingAttestations|] == missingAttestations;
    ghost var attesting := actions;
    for i := 0 to |agedHigh|
      invariant actions == attesting + BumpActions(agedHigh[..i])
    {
      assert agedHigh[..i + 1][..i] == agedHigh[..i];
      actions := actions + [BumpBaseImage(agedHigh[i])];
    }
    assert agedHigh[..|agedHigh|] == agedHigh;
  }
}
