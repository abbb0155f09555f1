/** What a snapshot leads to, said of the snapshot alone: its severity, and every step of its decision. */
module DriftLaws {
  import opened Wrappers
  import opened Crds
  import opened MergePatch
  import opened Actions
  import opened Security
  import opened SecurityLaws

  // ---- Findings in the order they are reported ----

  // A finding that counts: it names a CVE and no exception covers it
  predicate Counts(f: Finding, severity: FindingSeverity) {
    f.exceptionId.None? && f.cveId.Some? && f.severity == severity
  }

  // More than so many whole days old
  predicate Aged(f: Finding, now: Time, days: nat) {
    now - f.firstSeen >= (days + 1) * NANOS_PER_DAY
  }

  datatype Found = Found(obs: DigestObservation, f: Finding)

  function FoundIn(obs: DigestObservation, fs: seq<Finding>, want: Finding -> bool): seq<Found> {
    if fs == [] then []
    else var n := |fs| - 1; FoundIn(obs, fs[..n], want) + if want(fs[n]) then [Found(obs, fs[n])] else []
  }

  // Digest by digest, finding by finding
  function FoundBy(ds: seq<DigestObservation>, want: Finding -> bool): seq<Found> {
    if ds == [] then []
    else var n := |ds| - 1; FoundBy(ds[..n], want) + FoundIn(ds[n], ds[n].findings, want)
  }

  lemma {:induction false} FoundInMembers(obs: DigestObservation, fs: seq<Finding>, want: Finding -> bool)
    ensures forall x :: x in FoundIn(obs, fs, want) <==> x.obs == obs && x.f in fs && want(x.f)
  {
    if fs != [] {
      var n := |fs| - 1;
      FoundInMembers(obs, fs[..n], want);
      assert forall f :: f in fs <==> f in fs[..n] || f == fs[n];
    }
  }

  lemma {:induction false} FoundByMembers(ds: seq<DigestObservation>, want: Finding -> bool)
    ensures forall x :: x in FoundBy(ds, want) <==> x.obs in ds && x.f in x.obs.findings && want(x.f)
  {
    if ds != [] {
      var n := |ds| - 1;
      FoundByMembers(ds[..n], want);
      FoundInMembers(ds[n], ds[n].findings, want);
      assert forall o :: o in ds <==> o in ds[..n] || o == ds[n];
    }
  }

  function Critically(): Finding -> bool {
    (f: Finding) => Counts(f, CriticalFinding)
  }

  function AgedHigh(days: nat, now: Time): Finding -> bool {
    (f: Finding) => Counts(f, HighFinding) && Aged(f, now, days)
  }

  function AgedMedium(days: nat, now: Time): Finding -> bool {
    (f: Finding) => Counts(f, MediumFinding) && Aged(f, now, days)
  }

  // ---- The drift lists ----

  ghost predicate EntryOf(e: DigestCveAge, x: Found, now: Time) {
    && e.digest == x.obs.digest && e.service == x.obs.service && Some(e.cveId) == x.f.cveId
    && e.scanner == x.f.scanner
    && forall n: nat :: e.ageDays > n <==> Aged(x.f, now, n)
  }

  ghost predicate Enters(es: seq<DigestCveAge>, xs: seq<Found>, now: Time) {
    |es| == |xs| && forall i | 0 <= i < |es| :: EntryOf(es[i], xs[i], now)
  }

  lemma EntersJoin(a: seq<DigestCveAge>, xs: seq<Found>, b: seq<DigestCveAge>, ys: seq<Found>, now: Time)
    requires Enters(a, xs, now) && Enters(b, ys, now)
    ensures Enters(a + b, xs + ys, now)
  {
    hide EntryOf;
  }

  function Wanted(spec: SecuritySpec, now: Time, severity: FindingSeverity): Finding -> bool {
    match severity
    case CriticalFinding => Critically()
    case HighFinding => AgedHigh(spec.maxHighAgeDays, now)
    case MediumFinding => AgedMedium(spec.maxMediumAgeDays, now)
    case LowFinding => (f: Finding) => false
  }

  lemma BreachesMeans(spec: SecuritySpec, now: Time, f: Finding, severity: FindingSeverity)
    ensures Breaches(spec, now, f, severity) <==> Wanted(spec, now, severity)(f)
  {
    AgeThreshold(f, now, spec.maxHighAgeDays);
    AgeThreshold(f, now, spec.maxMediumAgeDays);
    hide AgeDays;
  }

  lemma EntryIsOf(obs: DigestObservation, f: Finding, now: Time)
    requires f.cveId.Some?
    ensures var e := DigestCveAge(obs.digest, obs.service, f.cveId.value, f.scanner, AgeDays(f, now));
            EntryOf(e, Found(obs, f), now)
  {
    forall n: nat ensures AgeDays(f, now) > n <==> Aged(f, now, n) {
      AgeThreshold(f, now, n);
    }
    hide AgeDays;
  }

  lemma {:induction false} BreachingEnters(spec: SecuritySpec, now: Time, obs: DigestObservation, fs: seq<Finding>,
    severity: FindingSeverity)
    ensures Enters(Breaching(spec, now, obs, fs, severity), FoundIn(obs, fs, Wanted(spec, now, severity)), now)
  {
    if fs != [] {
      var n := |fs| - 1;
      BreachingEnters(spec, now, obs, fs[..n], severity);
      BreachesMeans(spec, now, fs[n], severity);
      if Breaches(spec, now, fs[n], severity) { EntryIsOf(obs, fs[n], now); }
      hide Wanted, Breaches, EntryOf, AgeDays;
    }
  }

  // Each list holds what its findings say, each finding once, in the order in which they were reported
  lemma {:induction false} DriftListsTheFindings(spec: SecuritySpec, now: Time, ds: seq<DigestObservation>)
    ensures var d := DiffOf(spec, now, ds);
            && Enters(d.criticalCves, FoundBy(ds, Critically()), now)
            && Enters(d.agedHighCves, FoundBy(ds, AgedHigh(spec.maxHighAgeDays, now)), now)
            && Enters(d.agedMediumCves, FoundBy(ds, AgedMedium(spec.maxMediumAgeDays, now)), now)
  {
    if ds != [] {
      var n := |ds| - 1;
      DriftListsTheFindings(spec, now, ds[..n]);
      var before, o := DiffOf(spec, now, ds[..n]), ds[n];
      BreachingEnters(spec, now, o, o.findings, CriticalFinding);
      BreachingEnters(spec, now, o, o.findings, HighFinding);
      BreachingEnters(spec, now, o, o.findings, MediumFinding);
      OneMore(spec, now, ds);
      hide Breaching, Enters, Critically, AgedHigh, AgedMedium, DiffOf;
      var days, moreDays := spec.maxHighAgeDays, spec.maxMediumAgeDays;
      EntersJoin(before.criticalCves, FoundBy(ds[..n], Critically()),
        Breaching(spec, now, o, o.findings, CriticalFinding), FoundIn(o, o.findings, Critically()), now);
      EntersJoin(before.agedHighCves, FoundBy(ds[..n], AgedHigh(days, now)),
        Breaching(spec, now, o, o.findings, HighFinding), FoundIn(o, o.findings, AgedHigh(days, now)), now);
      EntersJoin(before.agedMediumCves, FoundBy(ds[..n], AgedMedium(moreDays, now)),
        Breaching(spec, now, o, o.findings, MediumFinding), FoundIn(o, o.findings, AgedMedium(moreDays, now)), now);
    }
  }

  lemma OneMore(spec: SecuritySpec, now: Time, ds: seq<DigestObservation>)
    requires ds != []
    ensures var n := |ds| - 1;
            var d, before, o := DiffOf(spec, now, ds), DiffOf(spec, now, ds[..n]), ds[n];
            && d.criticalCves == before.criticalCves + Breaching(spec, now, o, o.findings, CriticalFinding)
            && d.agedHighCves == before.agedHighCves + Breaching(spec, now, o, o.findings, HighFinding)
            && d.agedMediumCves == before.agedMediumCves + Breaching(spec, now, o, o.findings, MediumFinding)
  {
    hide Breaching, Difference, Clean;
  }

  lemma OneMoreListed(spec: SecuritySpec, now: Time, ds: seq<DigestObservation>)
    requires ds != []
    ensures var n := |ds| - 1;
            var d, before, o := DiffOf(spec, now, ds), DiffOf(spec, now, ds[..n]), ds[n];
            var missing := Difference(ALL_SCANNERS, spec.requiredScanners, o.scannersReported);
            && d.revokedOrQuarantined ==
                 before.revokedOrQuarantined + (if Withdrawn(o.cartorioStatus) then [o.digest] else [])
            && d.missingScanners == before.missingScanners + if missing == [] then [] else [(o.digest, missing)]
  {
    hide Breaching, Difference, Clean;
  }

  lemma {:induction false} DriftListsTheWithdrawn(spec: SecuritySpec, now: Time, ds: seq<DigestObservation>)
    ensures forall x :: x in DiffOf(spec, now, ds).revokedOrQuarantined <==>
                          exists o :: o in ds && Withdrawn(o.cartorioStatus) && o.digest == x
  {
    if ds != [] {
      var n := |ds| - 1;
      DriftListsTheWithdrawn(spec, now, ds[..n]);
      OneMoreListed(spec, now, ds);
      hide DiffOf, Withdrawn, Difference;
      assert forall o :: o in ds <==> o in ds[..n] || o == ds[n];
    }
  }

  // Of each digest the scanners that are required and have not reported
  lemma {:induction false} DriftListsTheMissing(spec: SecuritySpec, now: Time, ds: seq<DigestObservation>)
    ensures var d := DiffOf(spec, now, ds);
            && (forall m | m in d.missingScanners :: exists o :: o in ds && ReportsMissing(spec, o, m))
            && (forall o | o in ds && !(spec.requiredScanners <= o.scannersReported) ::
                  exists m :: m in d.missingScanners && ReportsMissing(spec, o, m))
  {
    if ds != [] {
      var n := |ds| - 1;
      DriftListsTheMissing(spec, now, ds[..n]);
      NothingMissing(spec, ds[n]);
      MissingIsReported(spec, ds[n]);
      OneMoreListed(spec, now, ds);
      hide DiffOf, Difference, ReportsMissing;
      assert forall o :: o in ds <==> o in ds[..n] || o == ds[n];
      var before := DiffOf(spec, now, ds[..n]).missingScanners;
      var missing := Difference(ALL_SCANNERS, spec.requiredScanners, ds[n].scannersReported);
      assert forall m :: m in DiffOf(spec, now, ds).missingScanners <==>
                           m in before || (missing != [] && m == (ds[n].digest, missing));
    }
  }

  predicate ReportsMissing(spec: SecuritySpec, o: DigestObservation, m: (string, seq<Scanner>)) {
    m.0 == o.digest && m.1 != [] &&
    forall s :: s in m.1 <==> s in spec.requiredScanners && s !in o.scannersReported
  }

  lemma MissingIsReported(spec: SecuritySpec, o: DigestObservation)
    ensures var missing := Difference(ALL_SCANNERS, spec.requiredScanners, o.scannersReported);
            missing != [] ==> ReportsMissing(spec, o, (o.digest, missing))
  {
    OrdersAreComplete();
    DifferenceMembers(ALL_SCANNERS, spec.requiredScanners, o.scannersReported);
    hide Difference, ALL_SCANNERS;
  }

  // ---- The severity ----

  predicate Withdrawn(a: ArtifactState) {
    a == ArtifactRevoked || a == ArtifactQuarantined || a == ArtifactSuperseded
  }

  predicate SeesCritical(ds: seq<DigestObservation>) {
    exists o :: o in ds && (Withdrawn(o.cartorioStatus) || exists f :: f in o.findings && Counts(f, CriticalFinding))
  }

  predicate Drifts(spec: SecuritySpec, now: Time, o: DigestObservation) {
    || (exists f :: f in o.findings && Counts(f, HighFinding) && Aged(f, now, spec.maxHighAgeDays))
    || (exists a :: a in spec.requiredAttestations && a !in o.attestationsPresent)
    || (exists s :: s in spec.requiredScanners && s !in o.scannersReported)
  }

  predicate SeesDrift(spec: SecuritySpec, now: Time, ds: seq<DigestObservation>) {
    exists o :: o in ds && Drifts(spec, now, o)
  }

  lemma DigestSeverityMeans(spec: SecuritySpec, now: Time, o: DigestObservation)
    ensures DigestSeverity(spec, now, o) ==
            if Withdrawn(o.cartorioStatus) || (exists f :: f in o.findings && Counts(f, CriticalFinding)) then Critical
            else if Drifts(spec, now, o) then Functional
            else Cosmetic
  {
    forall f ensures Breaches(spec, now, f, HighFinding) <==>
                     Counts(f, HighFinding) && Aged(f, now, spec.maxHighAgeDays)
    {
      BreachesMeans(spec, now, f, HighFinding);
    }
    hide Breaches, Aged;
  }

  lemma SeverityInPlainWords(spec: SecuritySpec, now: Time, ds: seq<DigestObservation>)
    ensures Classify(DiffOf(spec, now, ds)) ==
            if SeesCritical(ds) then Critical else if SeesDrift(spec, now, ds) then Functional else Cosmetic
  {
    ClassifyIsTheMaximum(spec, now, ds);
    forall o ensures DigestSeverity(spec, now, o) ==
            if Withdrawn(o.cartorioStatus) || (exists f :: f in o.findings && Counts(f, CriticalFinding)) then Critical
            else if Drifts(spec, now, o) then Functional
            else Cosmetic
    {
      DigestSeverityMeans(spec, now, o);
    }
    hide Classify, DiffOf, DigestSeverity, Withdrawn, Counts, Drifts;
    if SeesCritical(ds) {
      var o :| o in ds && (Withdrawn(o.cartorioStatus) || exists f :: f in o.findings && Counts(f, CriticalFinding));
      var i :| 0 <= i < |ds| && ds[i] == o;
      assert DigestSeverity(spec, now, ds[i]) == Critical;
    } else if SeesDrift(spec, now, ds) {
      var o :| o in ds && Drifts(spec, now, o);
      var i :| 0 <= i < |ds| && ds[i] == o;
      assert DigestSeverity(spec, now, ds[i]) == Functional;
    }
  }

  // ---- The steps of a decision ----

  predicate Says(j: Json, k: string, text: string) {
    j.Obj? && k in j.members && j.members[k] == Str(text)
  }

  predicate HasKeys(j: Json, keys: set<string>) {
    j.Obj? && j.members.Keys == keys
  }

  predicate RevokesTheDigest(a: TypedAction, x: Found) {
    && a.ReconcilerApply? && a.reconciler == CartorioAdmit && x.f.cveId.Some?
    && HasKeys(a.spec, {"digest", "transition", "reason"})
    && Says(a.spec, "digest", x.obs.digest) && Says(a.spec, "transition", "Revoked")
    && Says(a.spec, "reason", "Critical CVE " + x.f.cveId.value + " via " + ScannerDebug(x.f.scanner))
  }

  predicate RevokesTheTag(a: TypedAction, x: Found) {
    && a.ReconcilerApply? && a.reconciler == GhcrTagRevoke && x.f.cveId.Some?
    && HasKeys(a.spec, {"repo", "tag", "reason"})
    && Says(a.spec, "repo", "akeylesslabs/akeyless-" + x.obs.service) && Says(a.spec, "tag", "release")
    && Says(a.spec, "reason", x.f.cveId.value)
  }

  predicate PinsTheService(a: TypedAction, x: Found) {
    && a.FluxCommit? && a.path == "helmworks-akeyless/architectures/fedramp-high.yaml" && x.f.cveId.Some?
    && HasKeys(a.patch, {"service", "pin_to_previous_known_good", "reason"})
    && Says(a.patch, "service", x.obs.service) && a.patch.members["pin_to_previous_known_good"] == Bool(true)
    && Says(a.patch, "reason", "Critical CVE " + x.f.cveId.value)
  }

  ghost predicate Revokes(steps: seq<TypedAction>, xs: seq<Found>) {
    && |steps| == 3 * |xs|
    && forall i | 0 <= i < |xs| ::
         RevokesTheDigest(steps[3 * i], xs[i]) && RevokesTheTag(steps[3 * i + 1], xs[i]) &&
           PinsTheService(steps[3 * i + 2], xs[i])
  }

  lemma RevocationsOf(c: DigestCveAge, x: Found, now: Time)
    requires EntryOf(c, x, now)
    ensures RevokesTheDigest(RevokeDigest(c), x) && RevokesTheTag(RevokeTag(c), x) && PinsTheService(PinPrevious(c), x)
  {
  }

  lemma CriticalActionsRevoke(es: seq<DigestCveAge>, xs: seq<Found>, now: Time)
    requires Enters(es, xs, now)
    ensures Revokes(CriticalActions(es), xs)
  {
    hide CriticalActions, RevokeDigest, RevokeTag, PinPrevious, EntryOf, RevokesTheDigest, RevokesTheTag,
      PinsTheService;
    if es == [] {
      NothingRevoked();
    } else {
      CriticalActionsByCve(es, 0);
    }
    forall i | 0 <= i < |xs|
      ensures RevokesTheDigest(CriticalActions(es)[3 * i], xs[i])
      ensures RevokesTheTag(CriticalActions(es)[3 * i + 1], xs[i])
      ensures PinsTheService(CriticalActions(es)[3 * i + 2], xs[i])
    {
      CriticalActionsByCve(es, i);
      RevocationsOf(es[i], xs[i], now);
    }
  }

  lemma NothingRevoked()
    ensures CriticalActions([]) == []
  {
  }

  // ---- Functional ----

  datatype Lack = Lack(obs: DigestObservation, a: Attestation)

  function LacksIn(obs: DigestObservation, order: seq<Attestation>, required: set<Attestation>): seq<Lack> {
    if order == [] then []
    else
      (if order[0] in required && order[0] !in obs.attestationsPresent then [Lack(obs, order[0])] else []) +
      LacksIn(obs, order[1..], required)
  }

  // Digest by digest, attestation by attestation
  function Lacks(ds: seq<DigestObservation>, required: set<Attestation>): seq<Lack> {
    if ds == [] then []
    else
      var n := |ds| - 1;
      Lacks(ds[..n], required) + LacksIn(ds[n], [CartorioActive, CosignSig, SbomSpdx, SlsaAttested], required)
  }

  lemma {:induction false} LacksInMembers(obs: DigestObservation, order: seq<Attestation>, required: set<Attestation>)
    ensures forall x :: x in LacksIn(obs, order, required) <==>
              x.obs == obs && x.a in order && x.a in required && x.a !in obs.attestationsPresent
  {
    if order != [] {
      LacksInMembers(obs, order[1..], required);
      assert forall a :: a in order <==> a == order[0] || a in order[1..];
    }
  }

  lemma {:induction false} LacksMembers(ds: seq<DigestObservation>, required: set<Attestation>)
    ensures forall x :: x in Lacks(ds, required) <==>
              x.obs in ds && x.a in required && x.a !in x.obs.attestationsPresent
  {
    if ds != [] {
      var n := |ds| - 1;
      LacksMembers(ds[..n], required);
      LacksInMembers(ds[n], [CartorioActive, CosignSig, SbomSpdx, SlsaAttested], required);
      EveryAttestation();
      assert forall o :: o in ds <==> o in ds[..n] || o == ds[n];
    }
  }

  lemma EveryAttestation()
    ensures forall a: Attestation :: a in [CartorioActive, CosignSig, SbomSpdx, SlsaAttested]
  {
    OrdersAreComplete();
  }

  // Each attestation has its own reconciler
  predicate Supplies(a: TypedAction, x: Lack) {
    && a.ReconcilerApply?
    && (x.a == CartorioActive <==> a.reconciler == CartorioAdmit)
    && (x.a == CosignSig <==> a.reconciler == CosignAttest)
    && (x.a == SbomSpdx <==> a.reconciler == SbomGenerate)
    && (x.a == SlsaAttested <==> a.reconciler == SlsaProvenance)
    && HasKeys(a.spec, {"digest", "force"}) && Says(a.spec, "digest", x.obs.digest)
    && a.spec.members["force"] == Bool(true)
  }

  predicate Bumps(a: TypedAction, x: Found) {
    && a.ReconcilerApply? && a.reconciler == RenovateBaseImageBump && x.f.cveId.Some?
    && HasKeys(a.spec, {"cve_id", "image_digest", "target_repo"})
    && Says(a.spec, "cve_id", x.f.cveId.value) && Says(a.spec, "image_digest", x.obs.digest)
    && Says(a.spec, "target_repo", "akeylesslabs/akeyless-main-repo")
  }

  // A step for each missing attestation, then one for each aged high finding
  ghost predicate Remedies(steps: seq<TypedAction>, lacks: seq<Lack>, xs: seq<Found>) {
    && |steps| == |lacks| + |xs|
    && (forall i | 0 <= i < |lacks| :: Supplies(steps[i], lacks[i]))
    && (forall i | 0 <= i < |xs| :: Bumps(steps[|lacks| + i], xs[i]))
  }

  ghost predicate SuppliesAll(steps: seq<TypedAction>, lacks: seq<Lack>) {
    |steps| == |lacks| && forall i | 0 <= i < |lacks| :: Supplies(steps[i], lacks[i])
  }

  lemma SuppliesJoin(a: seq<TypedAction>, xs: seq<Lack>, b: seq<TypedAction>, ys: seq<Lack>)
    requires SuppliesAll(a, xs) && SuppliesAll(b, ys)
    ensures SuppliesAll(a + b, xs + ys)
  {
    hide Supplies;
  }

  lemma AttestSupplies(obs: DigestObservation, a: Attestation)
    ensures Supplies(Attest(obs.digest, a), Lack(obs, a))
  {
  }

  lemma {:induction false} LackedInOrder(obs: DigestObservation, order: seq<Attestation>, required: set<Attestation>)
    ensures var missing := Difference(order, required, obs.attestationsPresent);
            |LacksIn(obs, order, required)| == |missing| &&
            forall i | 0 <= i < |missing| :: LacksIn(obs, order, required)[i] == Lack(obs, missing[i])
  {
    if order != [] { LackedInOrder(obs, order[1..], required); }
  }

  lemma AttestAllSupplies(obs: DigestObservation, required: set<Attestation>)
    ensures SuppliesAll(AttestAll(obs.digest, Difference(ALL_ATTESTATIONS, required, obs.attestationsPresent)),
                        LacksIn(obs, [CartorioActive, CosignSig, SbomSpdx, SlsaAttested], required))
  {
    hide Supplies, Attest, AttestAll, Difference, LacksIn;
    var missing := Difference(ALL_ATTESTATIONS, required, obs.attestationsPresent);
    LackedInOrder(obs, ALL_ATTESTATIONS, required);
    AttestAllSize(obs.digest, missing);
    forall i | 0 <= i < |missing|
      ensures Supplies(AttestAll(obs.digest, missing)[i], LacksIn(obs, ALL_ATTESTATIONS, required)[i])
    {
      AttestSupplies(obs, missing[i]);
    }
  }

  lemma {:induction false} AttestationActionsSupply(spec: SecuritySpec, now: Time, ds: seq<DigestObservation>)
    ensures SuppliesAll(AttestationActions(DiffOf(spec, now, ds).missingAttestations),
                        Lacks(ds, spec.requiredAttestations))
  {
    if ds != [] {
      var n := |ds| - 1;
      AttestationActionsSupply(spec, now, ds[..n]);
      AttestAllSupplies(ds[n], spec.requiredAttestations);
      OneMoreAttested(spec, now, ds);
      hide AttestationActions, DiffOf, SuppliesAll, LacksIn, AttestAll, Difference;
      SuppliesJoin(AttestationActions(DiffOf(spec, now, ds[..n]).missingAttestations),
        Lacks(ds[..n], spec.requiredAttestations),
        AttestAll(ds[n].digest, Difference(ALL_ATTESTATIONS, spec.requiredAttestations, ds[n].attestationsPresent)),
        LacksIn(ds[n], [CartorioActive, CosignSig, SbomSpdx, SlsaAttested], spec.requiredAttestations));
    }
  }

  lemma OneMoreAttested(spec: SecuritySpec, now: Time, ds: seq<DigestObservation>)
    requires ds != []
    ensures var n := |ds| - 1;
            var missing := Difference(ALL_ATTESTATIONS, spec.requiredAttestations, ds[n].attestationsPresent);
            AttestationActions(DiffOf(spec, now, ds).missingAttestations) ==
            AttestationActions(DiffOf(spec, now, ds[..n]).missingAttestations) + AttestAll(ds[n].digest, missing)
  {
    hide Breaching, Difference, Clean, Attest;
    var n := |ds| - 1;
    var before := DiffOf(spec, now, ds[..n]).missingAttestations;
    var missing := Difference(ALL_ATTESTATIONS, spec.requiredAttestations, ds[n].attestationsPresent);
    if missing == [] {
      assert DiffOf(spec, now, ds).missingAttestations == before + [] == before;
      assert AttestAll(ds[n].digest, missing) == [];
    } else {
      var all := DiffOf(spec, now, ds).missingAttestations;
      assert all == before + [(ds[n].digest, missing)];
      assert all[..|all| - 1] == before;
    }
  }

  lemma {:induction false} BumpsInOrder(es: seq<DigestCveAge>, xs: seq<Found>, now: Time)
    requires Enters(es, xs, now)
    ensures |BumpActions(es)| == |xs| && forall i | 0 <= i < |xs| :: Bumps(BumpActions(es)[i], xs[i])
  {
    if es != [] {
      var n := |es| - 1;
      hide EntryOf, Bumps, BumpBaseImage;
      BumpsInOrder(es[..n], xs[..n], now);
      BumpOf(es[n], xs[n], now);
    }
  }

  lemma BumpOf(e: DigestCveAge, x: Found, now: Time)
    requires EntryOf(e, x, now)
    ensures Bumps(BumpBaseImage(e), x)
  {
  }

  // ---- Cosmetic ----

  predicate Mirrored(spec: SecuritySpec, now: Time, o: DigestObservation) {
    && o.cartorioStatus == ArtifactActive
    && (forall a | a in spec.requiredAttestations :: a in o.attestationsPresent)
    && (forall s | s in spec.requiredScanners :: s in o.scannersReported)
    && forall f | f in o.findings ::
         && !Critically()(f)
         && !AgedHigh(spec.maxHighAgeDays, now)(f) && !AgedMedium(spec.maxMediumAgeDays, now)(f)
  }

  function MirroredIn(spec: SecuritySpec, now: Time, ds: seq<DigestObservation>): seq<DigestObservation> {
    if ds == [] then []
    else var n := |ds| - 1; MirroredIn(spec, now, ds[..n]) + if Mirrored(spec, now, ds[n]) then [ds[n]] else []
  }

  predicate Mirrors(a: TypedAction, spec: SecuritySpec, o: DigestObservation) {
    && a.ReconcilerApply? && a.reconciler == HarborMirror
    && HasKeys(a.spec, {"source_repo", "source_digest", "target_registry", "target_project", "preserve_digest"})
    && Says(a.spec, "source_repo", "akeylesslabs/akeyless-" + o.service) && Says(a.spec, "source_digest", o.digest)
    && Says(a.spec, "target_registry", spec.harborTargetRegistry) && Says(a.spec, "target_project", "akeyless")
    && a.spec.members["preserve_digest"] == Bool(true)
  }

  ghost predicate MirrorsAll(steps: seq<TypedAction>, spec: SecuritySpec, os: seq<DigestObservation>) {
    |steps| == |os| && forall i | 0 <= i < |os| :: Mirrors(steps[i], spec, os[i])
  }

  lemma MirrorableMeans(spec: SecuritySpec, now: Time, o: DigestObservation)
    ensures Mirrorable(spec, now, o) <==> Mirrored(spec, now, o)
  {
    forall f ensures (Breaches(spec, now, f, CriticalFinding) <==> Critically()(f)) &&
                     (Breaches(spec, now, f, HighFinding) <==> AgedHigh(spec.maxHighAgeDays, now)(f)) &&
                     (Breaches(spec, now, f, MediumFinding) <==> AgedMedium(spec.maxMediumAgeDays, now)(f))
    {
      BreachesMeans(spec, now, f, CriticalFinding);
      BreachesMeans(spec, now, f, HighFinding);
      BreachesMeans(spec, now, f, MediumFinding);
    }
    hide Breaches, Critically, AgedHigh, AgedMedium;
  }

  lemma {:induction false} MirrorableInOrder(spec: SecuritySpec, now: Time, ds: seq<DigestObservation>)
    ensures var os := MirroredIn(spec, now, ds);
            |MirrorableDigests(spec, now, ds)| == |os| &&
            forall i | 0 <= i < |os| ::
              MirrorableDigests(spec, now, ds)[i] == DigestService(os[i].digest, os[i].service)
  {
    if ds != [] {
      MirrorableInOrder(spec, now, ds[..|ds| - 1]);
      MirrorableMeans(spec, now, ds[|ds| - 1]);
      hide Mirrorable, Mirrored;
    }
  }

  // ---- The decision, from the snapshot alone ----

  ghost predicate Decided(spec: SecuritySpec, now: Time, ds: seq<DigestObservation>, r: Decision) {
    if SeesCritical(ds) then
      r.AutoCorrect? && r.action.Compose? && Revokes(r.action.steps, FoundBy(ds, Critically()))
    else if SeesDrift(spec, now, ds) then
      var lacks, high := Lacks(ds, spec.requiredAttestations), FoundBy(ds, AgedHigh(spec.maxHighAgeDays, now));
      if lacks == [] && high == [] then r == Alert
      else r.AutoCorrect? && r.action.Compose? && Remedies(r.action.steps, lacks, high)
    else
      var clean := MirroredIn(spec, now, ds);
      if !spec.harborForwardingEnabled || clean == [] then r == NoAction
      else r.AutoCorrect? && r.action.Compose? && MirrorsAll(r.action.steps, spec, clean)
  }

  lemma DecisionInPlainWords(spec: SecuritySpec, now: Time, ds: seq<DigestObservation>)
    ensures var d := DiffOf(spec, now, ds); Decided(spec, now, ds, DecideOf(spec, Classify(d), d))
  {
    hide DiffOf, Classify, SeesCritical, SeesDrift, FoundBy, Lacks, Critically, AgedHigh, CriticalActions,
      AttestationActions, BumpActions, MirrorActions, MirroredIn, Mirrors, Bumps, Supplies, Enters, Revokes;
    var d := DiffOf(spec, now, ds);
    SeverityInPlainWords(spec, now, ds);
    DriftListsTheFindings(spec, now, ds);
    if SeesCritical(ds) {
      CriticalActionsRevoke(d.criticalCves, FoundBy(ds, Critically()), now);
    } else if SeesDrift(spec, now, ds) {
      AttestationActionsSupply(spec, now, ds);
      BumpsInOrder(d.agedHighCves, FoundBy(ds, AgedHigh(spec.maxHighAgeDays, now)), now);
    } else {
      MirrorsTheClean(spec, now, ds);
      CleanDigestsAreMirrorable(spec, now, ds);
    }
  }

  lemma MirrorsTheClean(spec: SecuritySpec, now: Time, ds: seq<DigestObservation>)
    ensures MirrorsAll(MirrorActions(spec, MirrorableDigests(spec, now, ds)), spec, MirroredIn(spec, now, ds))
    ensures MirrorableDigests(spec, now, ds) == [] <==> MirroredIn(spec, now, ds) == []
  {
    hide MirrorableDigests, MirroredIn;
    MirrorableInOrder(spec, now, ds);
    var clean, os := MirrorableDigests(spec, now, ds), MirroredIn(spec, now, ds);
    forall i | 0 <= i < |os| ensures Mirrors(MirrorActions(spec, clean)[i], spec, os[i]) {
    }
  }
}
