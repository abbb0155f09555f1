/** What diff, classify and decide mean, over every snapshot. */
module SecurityLaws {
  import opened Crds
  import opened Actions
  import opened Security

  // ---- Ages ----

  const NANOS_PER_DAY := 86_400_000_000_000

  // Dropping fractions twice still means: more than n days old is at least n + 1 full days old
  lemma AgeThreshold(f: Finding, now: Time, n: nat)
    ensures AgeDays(f, now) > n <==> now - f.firstSeen >= (n + 1) * NANOS_PER_DAY
  {
  }

  lemma AgeGrows(f: Finding, g: Finding, now: Time, later: Time, n: nat)
    requires now - f.firstSeen <= later - g.firstSeen && AgeDays(f, now) > n
    ensures AgeDays(g, later) > n
  {
    AgeThreshold(f, now, n);
    AgeThreshold(g, later, n);
  }

  // ---- Diff of a longer snapshot ----

  lemma JoinAssociates(a: Drift, b: Drift, c: Drift)
    ensures Join(Join(a, b), c) == Join(a, Join(b, c))
  {
    assert Join(Join(a, b), c).criticalCves == Join(a, Join(b, c)).criticalCves;
  }

  lemma JoinNothing(a: Drift)
    ensures Join(a, NO_DRIFT) == a
  {
  }

  // The drift of two snapshots side by side is their drifts side by side
  lemma {:induction false} DiffConcat(spec: SecuritySpec, now: Time, a: seq<DigestObservation>,
      b: seq<DigestObservation>)
    ensures DiffOf(spec, now, a + b) == Join(DiffOf(spec, now, a), DiffOf(spec, now, b))
  {
    hide Join, DigestDrift, NO_DRIFT;
    if b == [] {
      assert a + b == a;
      JoinNothing(DiffOf(spec, now, a));
    } else {
      var n := |b| - 1;
      assert (a + b)[..|a + b| - 1] == a + b[..n];
      DiffConcat(spec, now, a, b[..n]);
      JoinAssociates(DiffOf(spec, now, a), DiffOf(spec, now, b[..n]), DigestDrift(spec, now, b[n]));
    }
  }

  function MaxSeverity(a: Severity, b: Severity): Severity {
    if a.Rank() >= b.Rank() then a else b
  }

  lemma ClassifyJoin(a: Drift, b: Drift)
    ensures Classify(Join(a, b)) == MaxSeverity(Classify(a), Classify(b))
  {
  }

  lemma ClassifyNothing()
    ensures Classify(NO_DRIFT) == Cosmetic
  {
  }

  // ---- What a severity means ----

  predicate IsCritical(obs: DigestObservation) {
    BadStatus(obs.cartorioStatus) || exists f :: f in obs.findings && Live(f) && f.severity == CriticalFinding
  }

  predicate IsDrifting(spec: SecuritySpec, now: Time, obs: DigestObservation) {
    || (exists f :: f in obs.findings && Breaches(spec, now, f, HighFinding))
    || !(spec.requiredAttestations <= obs.attestationsPresent)
    || !(spec.requiredScanners <= obs.scannersReported)
  }

  function DigestSeverity(spec: SecuritySpec, now: Time, obs: DigestObservation): Severity {
    if IsCritical(obs) then Critical else if IsDrifting(spec, now, obs) then Functional else Cosmetic
  }

  lemma {:induction false} BreachingIsEmpty(spec: SecuritySpec, now: Time, obs: DigestObservation, fs: seq<Finding>,
    severity: FindingSeverity)
    ensures Breaching(spec, now, obs, fs, severity) == [] <==> forall f | f in fs :: !Breaches(spec, now, f, severity)
  {
    if fs != [] {
      var n := |fs| - 1;
      BreachingIsEmpty(spec, now, obs, fs[..n], severity);
      assert forall f :: f in fs <==> f in fs[..n] || f == fs[n];
    }
  }

  lemma {:induction false} DifferenceIsEmpty<T>(order: seq<T>, required: set<T>, present: set<T>)
    ensures Difference(order, required, present) == [] <==> forall x | x in order && x in required :: x in present
  {
    if order != [] {
      DifferenceIsEmpty(order[1..], required, present);
      assert forall x :: x in order <==> x == order[0] || x in order[1..];
    }
  }

  lemma {:induction false} DifferenceMembers<T>(order: seq<T>, required: set<T>, present: set<T>)
    ensures forall x :: x in Difference(order, required, present) <==> x in order && x in required && x !in present
  {
    if order != [] {
      DifferenceMembers(order[1..], required, present);
      assert forall x :: x in order <==> x == order[0] || x in order[1..];
    }
  }

  lemma OrdersAreComplete()
    ensures forall s: Scanner :: s in ALL_SCANNERS
    ensures forall a: Attestation :: a in ALL_ATTESTATIONS
  {
    forall s: Scanner ensures s in ALL_SCANNERS {
      assert ALL_SCANNERS[ScannerRank(s)] == s;
    }
    forall a: Attestation ensures a in ALL_ATTESTATIONS {
      var i := match a case CartorioActive => 0 case CosignSig => 1 case SbomSpdx => 2 case SlsaAttested => 3;
      assert ALL_ATTESTATIONS[i] == a;
    }
  }

  lemma NothingMissing(spec: SecuritySpec, obs: DigestObservation)
    ensures Difference(ALL_ATTESTATIONS, spec.requiredAttestations, obs.attestationsPresent) == [] <==>
            spec.requiredAttestations <= obs.attestationsPresent
    ensures Difference(ALL_SCANNERS, spec.requiredScanners, obs.scannersReported) == [] <==>
            spec.requiredScanners <= obs.scannersReported
  {
    OrdersAreComplete();
    DifferenceIsEmpty(ALL_ATTESTATIONS, spec.requiredAttestations, obs.attestationsPresent);
    DifferenceIsEmpty(ALL_SCANNERS, spec.requiredScanners, obs.scannersReported);
  }

  lemma ClassifyOneDigest(spec: SecuritySpec, now: Time, obs: DigestObservation)
    ensures Classify(DigestDrift(spec, now, obs)) == DigestSeverity(spec, now, obs)
  {
    BreachingIsEmpty(spec, now, obs, obs.findings, CriticalFinding);
    BreachingIsEmpty(spec, now, obs, obs.findings, HighFinding);
    NothingMissing(spec, obs);
    assert forall f :: f in obs.findings && Breaches(spec, now, f, CriticalFinding) <==>
                       f in obs.findings && Live(f) && f.severity == CriticalFinding;
  }

  // The severity of a snapshot is the worst severity of its digests
  lemma {:induction false} ClassifyIsTheMaximum(spec: SecuritySpec, now: Time, ds: seq<DigestObservation>)
    ensures forall i | 0 <= i < |ds| ::
              DigestSeverity(spec, now, ds[i]).Rank() <= Classify(DiffOf(spec, now, ds)).Rank()
    ensures Classify(DiffOf(spec, now, ds)) == Cosmetic ||
            exists i :: 0 <= i < |ds| && DigestSeverity(spec, now, ds[i]) == Classify(DiffOf(spec, now, ds))
  {
    hide Classify, DigestDrift, DigestSeverity, Join;
    if ds == [] {
      assert Classify(NO_DRIFT) == Cosmetic by { ClassifyNothing(); }
    } else {
      var n := |ds| - 1;
      ClassifyIsTheMaximum(spec, now, ds[..n]);
      ClassifyJoin(DiffOf(spec, now, ds[..n]), DigestDrift(spec, now, ds[n]));
      ClassifyOneDigest(spec, now, ds[n]);
      if i :| 0 <= i < n && DigestSeverity(spec, now, ds[..n][i]) == Classify(DiffOf(spec, now, ds[..n])) {
        assert ds[..n][i] == ds[i];
      }
    }
  }

  // ---- Severity is monotone ----

  // The later observation is no better: no finding has gone or got an exception, no attestation or report has appeared
  ghost predicate NoBetter(now: Time, a: DigestObservation, later: Time, b: DigestObservation) {
    && (BadStatus(a.cartorioStatus) ==> BadStatus(b.cartorioStatus))
    && b.attestationsPresent <= a.attestationsPresent
    && b.scannersReported <= a.scannersReported
    && forall f | f in a.findings && Live(f) ::
         exists g :: g in b.findings && Live(g) && g.severity == f.severity && now - f.firstSeen <= later - g.firstSeen
  }

  lemma DigestSeverityIsMonotone(spec: SecuritySpec, now: Time, a: DigestObservation, later: Time, b: DigestObservation)
    requires NoBetter(now, a, later, b)
    ensures DigestSeverity(spec, now, a).Rank() <= DigestSeverity(spec, later, b).Rank()
  {
    if !BadStatus(a.cartorioStatus) && IsCritical(a) {
      var f :| f in a.findings && Live(f) && f.severity == CriticalFinding;
      var g :| g in b.findings && Live(g) && g.severity == f.severity;
      assert IsCritical(b);
    } else if f :| f in a.findings && Breaches(spec, now, f, HighFinding) {
      var g :| g in b.findings && Live(g) && g.severity == f.severity && now - f.firstSeen <= later - g.firstSeen;
      AgeGrows(f, g, now, later, spec.maxHighAgeDays);
      assert Breaches(spec, later, g, HighFinding);
    }
  }

  // More findings, more digests or more time never lower the severity;
  // read backwards, exceptions, attestations and reports never raise it
  lemma SeverityIsMonotone(spec: SecuritySpec, now: Time, a: seq<DigestObservation>, later: Time,
    b: seq<DigestObservation>)
    requires forall i | 0 <= i < |a| :: exists j :: 0 <= j < |b| && NoBetter(now, a[i], later, b[j])
    ensures Classify(DiffOf(spec, now, a)).Rank() <= Classify(DiffOf(spec, later, b)).Rank()
  {
    ClassifyIsTheMaximum(spec, now, a);
    ClassifyIsTheMaximum(spec, later, b);
    if i :| 0 <= i < |a| && DigestSeverity(spec, now, a[i]) == Classify(DiffOf(spec, now, a)) {
      var j :| 0 <= j < |b| && NoBetter(now, a[i], later, b[j]);
      DigestSeverityIsMonotone(spec, now, a[i], later, b[j]);
    }
  }

  // ---- Clean digests ----

  predicate Mirrorable(spec: SecuritySpec, now: Time, obs: DigestObservation) {
    && obs.cartorioStatus == ArtifactActive
    && spec.requiredAttestations <= obs.attestationsPresent
    && spec.requiredScanners <= obs.scannersReported
    && NothingBreaches(spec, now, obs.findings)
  }

  function MirrorableDigests(spec: SecuritySpec, now: Time, ds: seq<DigestObservation>): seq<DigestService> {
    if ds == [] then []
    else
      var n := |ds| - 1;
      MirrorableDigests(spec, now, ds[..n]) +
      if Mirrorable(spec, now, ds[n]) then [DigestService(ds[n].digest, ds[n].service)] else []
  }

  // The clean list is exactly the mirrorable digests, in order
  lemma {:induction false} CleanDigestsAreMirrorable(spec: SecuritySpec, now: Time, ds: seq<DigestObservation>)
    ensures DiffOf(spec, now, ds).allCleanDigests == MirrorableDigests(spec, now, ds)
  {
    if ds != [] {
      var n := |ds| - 1;
      CleanDigestsAreMirrorable(spec, now, ds[..n]);
      NothingMissing(spec, ds[n]);
    }
  }

  predicate Mentions(d: Drift, digest: string) {
    || (exists c :: c in d.criticalCves + d.agedHighCves + d.agedMediumCves && c.digest == digest)
    || (exists m :: m in d.missingAttestations && m.0 == digest)
    || (exists m :: m in d.missingScanners && m.0 == digest)
    || digest in d.revokedOrQuarantined
  }

  lemma {:induction false} BreachingMentions(spec: SecuritySpec, now: Time, obs: DigestObservation, fs: seq<Finding>,
    severity: FindingSeverity)
    ensures forall c | c in Breaching(spec, now, obs, fs, severity) :: c.digest == obs.digest
  {
    if fs != [] { BreachingMentions(spec, now, obs, fs[..|fs| - 1], severity); }
  }

  lemma MentionsOneDigest(spec: SecuritySpec, now: Time, obs: DigestObservation)
    requires obs.cartorioStatus != ArtifactPending && !Mirrorable(spec, now, obs)
    ensures Mentions(DigestDrift(spec, now, obs), obs.digest)
  {
    var d := DigestDrift(spec, now, obs);
    NothingMissing(spec, obs);
    BreachingIsEmpty(spec, now, obs, obs.findings, CriticalFinding);
    BreachingIsEmpty(spec, now, obs, obs.findings, HighFinding);
    BreachingIsEmpty(spec, now, obs, obs.findings, MediumFinding);
    BreachingMentions(spec, now, obs, obs.findings, CriticalFinding);
    BreachingMentions(spec, now, obs, obs.findings, HighFinding);
    BreachingMentions(spec, now, obs, obs.findings, MediumFinding);
    if d.missingAttestations != [] {
      assert d.missingAttestations[0] in d.missingAttestations;
    } else if d.missingScanners != [] {
      assert d.missingScanners[0] in d.missingScanners;
    } else if !BadStatus(obs.cartorioStatus) {
      var all := d.criticalCves + d.agedHighCves + d.agedMediumCves;
      assert |all| > 0;
      assert all[0] in all && all[0].digest == obs.digest;
    }
  }

  // Every digest that is neither clean nor still pending shows up in some drift list
  lemma {:induction false} NoDigestIsForgotten(spec: SecuritySpec, now: Time, ds: seq<DigestObservation>, i: nat)
    requires i < |ds| && ds[i].cartorioStatus != ArtifactPending
    ensures Mirrorable(spec, now, ds[i]) || Mentions(DiffOf(spec, now, ds), ds[i].digest)
  {
    hide DigestDrift, Mentions, Mirrorable, Join;
    var obs := ds[i];
    if !Mirrorable(spec, now, obs) {
      assert ds == ds[..i] + [obs] + ds[i + 1..];
      DiffConcat(spec, now, ds[..i] + [obs], ds[i + 1..]);
      DiffConcat(spec, now, ds[..i], [obs]);
      DiffOfOne(spec, now, obs);
      MentionsOneDigest(spec, now, obs);
      MentionsJoin(DiffOf(spec, now, ds[..i]), DigestDrift(spec, now, obs), DiffOf(spec, now, ds[i + 1..]), obs.digest);
    }
  }

  lemma DiffOfOne(spec: SecuritySpec, now: Time, obs: DigestObservation)
    ensures DiffOf(spec, now, [obs]) == DigestDrift(spec, now, obs)
  {
    assert [obs][..0] == [];
    var d := DigestDrift(spec, now, obs);
    assert Join(NO_DRIFT, d) == d;
  }

  lemma MentionsJoin(a: Drift, b: Drift, c: Drift, digest: string)
    requires Mentions(b, digest)
    ensures Mentions(Join(Join(a, b), c), digest)
  {
    var d := Join(Join(a, b), c);
    if x :| x in b.criticalCves + b.agedHighCves + b.agedMediumCves && x.digest == digest {
      assert x in d.criticalCves + d.agedHighCves + d.agedMediumCves;
    } else if x :| x in b.missingAttestations && x.0 == digest {
      assert x in d.missingAttestations;
    } else if x :| x in b.missingScanners && x.0 == digest {
      assert x in d.missingScanners;
    }
  }

  // ---- Decisions ----

  // On a drift `diff` produced, a cosmetic snapshot with forwarding on mirrors exactly the clean digests
  lemma CosmeticMirrorsTheCleanDigests(spec: SecuritySpec, now: Time, ds: seq<DigestObservation>)
    requires Classify(DiffOf(spec, now, ds)) == Cosmetic
    ensures var clean := MirrorableDigests(spec, now, ds);
            DecideOf(spec, Cosmetic, DiffOf(spec, now, ds)) ==
            if spec.harborForwardingEnabled && clean != [] then AutoCorrect(Compose(MirrorActions(spec, clean)))
              else NoAction
  {
    CleanDigestsAreMirrorable(spec, now, ds);
  }

  lemma {:induction false} AttestAllSize(digest: string, missing: seq<Attestation>)
    ensures |AttestAll(digest, missing)| == |missing|
    ensures forall k | 0 <= k < |missing| :: AttestAll(digest, missing)[k] == Attest(digest, missing[k])
  {
    if missing != [] { AttestAllSize(digest, missing[..|missing| - 1]); }
  }

  lemma {:induction false} AttestationActionsAppear(missing: seq<(string, seq<Attestation>)>)
    requires forall m | m in missing :: m.1 != []
    ensures AttestationActions(missing) == [] <==> missing == []
  {
    if missing != [] {
      var n := |missing| - 1;
      assert missing[n] in missing;
      AttestAllSize(missing[n].0, missing[n].1);
    }
  }

  lemma {:induction false} MissingListsAreNotEmpty(spec: SecuritySpec, now: Time, ds: seq<DigestObservation>)
    ensures forall m | m in DiffOf(spec, now, ds).missingAttestations :: m.1 != []
  {
    if ds != [] { MissingListsAreNotEmpty(spec, now, ds[..|ds| - 1]); }
  }

  // A drift is only alerted on when it is functional for missing scanners alone
  lemma AlertIffOnlyScannersMissing(spec: SecuritySpec, now: Time, ds: seq<DigestObservation>)
    ensures var d := DiffOf(spec, now, ds);
            DecideOf(spec, Classify(d), d) == Alert <==>
              && d.missingScanners != []
              && d.criticalCves == [] && d.revokedOrQuarantined == []
              && d.agedHighCves == [] && d.missingAttestations == []
  {
    MissingListsAreNotEmpty(spec, now, ds);
    AlertOnDrift(spec, DiffOf(spec, now, ds));
  }

  lemma AlertOnDrift(spec: SecuritySpec, d: Drift)
    requires forall m | m in d.missingAttestations :: m.1 != []
    ensures DecideOf(spec, Classify(d), d) == Alert <==>
              && d.missingScanners != []
              && d.criticalCves == [] && d.revokedOrQuarantined == []
              && d.agedHighCves == [] && d.missingAttestations == []
  {
    AttestationActionsAppear(d.missingAttestations);
    assert d.agedHighCves != [] ==> BumpActions(d.agedHighCves) != [];
  }

  // Each critical CVE gets its three remedies, in this order, at its own place
  lemma {:induction false} CriticalActionsByCve(cves: seq<DigestCveAge>, i: nat)
    requires i < |cves|
    ensures |CriticalActions(cves)| == 3 * |cves|
    ensures CriticalActions(cves)[3 * i] == RevokeDigest(cves[i])
    ensures CriticalActions(cves)[3 * i + 1] == RevokeTag(cves[i])
    ensures CriticalActions(cves)[3 * i + 2] == PinPrevious(cves[i])
  {
    hide RevokeDigest, RevokeTag, PinPrevious;
    var n := |cves| - 1;
    if n > 0 { CriticalActionsByCve(cves[..n], if i < n then i else 0); }
    if i < n { assert cves[..n][i] == cves[i]; }
  }

  // ---- Names ----

  function Lower(c: char): char {
    if 'A' <= c <= 'Z' then c - 'A' + 'a' else c
  }

  // Where the short name of a scanner begins in its full name
  function Offset(s: Scanner): nat {
    match s case DockerScout => 6 case JfrogXray => 5 case _ => 0
  }

  function LowerCase(s: string): string {
    seq(|s|, i requires 0 <= i < |s| => Lower(s[i]))
  }

  predicate NamesAgree(s: Scanner) {
    var at, end := Offset(s), Offset(s) + |ScannerKebab(s)|;
    end <= |ScannerDebug(s)| && ScannerKebab(s) == LowerCase(ScannerDebug(s))[at..end]
  }

  lemma NamesOfTheFirst(s: Scanner)
    requires ScannerRank(s) < 6
    ensures NamesAgree(s)
  {
    match s
    case Trivy => assert LowerCase("Trivy")[0..5] == "trivy";
    case Grype => assert LowerCase("Grype")[0..5] == "grype";
    case Syft => assert LowerCase("Syft")[0..4] == "syft";
    case Trufflehog => assert LowerCase("Trufflehog")[0..10] == "trufflehog";
    case Semgrep => assert LowerCase("Semgrep")[0..7] == "semgrep";
    case KubeLinter => assert LowerCase("KubeLinter")[0..10] == "kubelinter";
    case _ =>
  }

  lemma NamesOfTheNext(s: Scanner)
    requires 6 <= ScannerRank(s) < 11
    ensures NamesAgree(s)
  {
    match s
    case KubeBench => assert LowerCase("KubeBench")[0..9] == "kubebench";
    case KubeHunter => assert LowerCase("KubeHunter")[0..10] == "kubehunter";
    case Polaris => assert LowerCase("Polaris")[0..7] == "polaris";
    case StigCisValidator => assert LowerCase("StigCisValidator")[0..4] == "stig";
    case Zap => assert LowerCase("Zap")[0..3] == "zap";
    case _ =>
  }

  lemma NamesOfTheRest(s: Scanner)
    requires 11 <= ScannerRank(s)
    ensures NamesAgree(s)
  {
    match s
    case Snyk => assert LowerCase("Snyk")[0..4] == "snyk";
    case DockerScout => assert LowerCase("DockerScout")[6..11] == "scout";
    case JfrogXray => assert LowerCase("JfrogXray")[5..9] == "xray";
    case Wiz => assert LowerCase("Wiz")[0..3] == "wiz";
    case PrismaCloud => assert LowerCase("PrismaCloud")[0..6] == "prisma";
    case BurpEnterprise => assert LowerCase("BurpEnterprise")[0..4] == "burp";
    case Codeql => assert LowerCase("Codeql")[0..6] == "codeql";
    case _ =>
  }

  // The name in job names and the name in reasons are of the same scanner: without its capitals, the one is
  // found in the other
  lemma ShortNamesAreInFullNames(s: Scanner)
    ensures NamesAgree(s)
  {
    hide NamesAgree;
    if ScannerRank(s) < 6 {
      NamesOfTheFirst(s);
    } else if ScannerRank(s) < 11 {
      NamesOfTheNext(s);
    } else {
      NamesOfTheRest(s);
    }
  }
}
