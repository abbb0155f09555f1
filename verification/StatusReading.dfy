/** Reading stored statuses: what a status encodes to reads back as that status. */
module StatusReading {
  import opened Wrappers
  import opened MergePatch
  import opened Crds
  import opened Encodings
  import opened Actions
  import opened Pipeline
  import opened StatusPatch

  // ---- Names ----

  function ReadPhase(s: string): Option<Phase> {
    if s == "Pending" then Some(Pending) else if s == "Provisioning" then Some(Provisioning)
    else if s == "Scanning" then Some(Scanning) else if s == "Aggregating" then Some(Aggregating)
    else if s == "Attesting" then Some(Attesting) else if s == "Gating" then Some(Gating)
    else if s == "Passed" then Some(Passed) else if s == "Failed" then Some(Phase.Failed)
    else if s == "Quarantined" then Some(Quarantined) else None
  }

  function ReadJobPhase(s: string): Option<ScanJobPhase> {
    if s == "Pending" then Some(JobPending) else if s == "Forking" then Some(Forking)
    else if s == "Execing" then Some(Execing) else if s == "Running" then Some(Running)
    else if s == "Attested" then Some(Attested) else if s == "Reconverging" then Some(Reconverging)
    else if s == "Exiting" then Some(Exiting) else if s == "Failed" then Some(JobFailed)
    else if s == "Zombie" then Some(Zombie) else if s == "Reaped" then Some(JobReaped) else None
  }

  function ReadArtifact(s: string): Option<ArtifactState> {
    if s == "Pending" then Some(ArtifactPending) else if s == "Active" then Some(ArtifactActive)
    else if s == "Quarantined" then Some(ArtifactQuarantined) else if s == "Revoked" then Some(ArtifactRevoked)
    else if s == "Superseded" then Some(ArtifactSuperseded) else None
  }

  function ReadSeverity(s: string): Option<Severity> {
    if s == "Cosmetic" then Some(Cosmetic) else if s == "Functional" then Some(Functional)
    else if s == "Critical" then Some(Critical) else None
  }

  function ReadVerdict(s: string): Option<Verdict> {
    if s == "Passed" then Some(VerdictPassed) else if s == "Failed" then Some(VerdictFailed)
    else if s == "Quarantined" then Some(VerdictQuarantined) else None
  }

  function ReadTenantPhase(s: string): Option<TenantPhase> {
    if s == "Pending" then Some(TenantPending) else if s == "InfraProvisioning" then Some(InfraProvisioning)
    else if s == "ChartRendering" then Some(ChartRendering) else if s == "PodsRunning" then Some(PodsRunning)
    else if s == "Ready" then Some(Ready) else if s == "Scanning" then Some(TenantScanning)
    else if s == "Teardown" then Some(Teardown) else if s == "Reaped" then Some(TenantReaped)
    else if s == "Failed" then Some(TenantFailed) else None
  }

  lemma PhaseReadsBack(p: Phase)
    ensures ReadPhase(PhaseName(p)) == Some(p)
  {
  }

  lemma JobPhaseReadsBack(p: ScanJobPhase)
    ensures ReadJobPhase(JobPhaseName(p)) == Some(p)
  {
  }

  lemma ArtifactReadsBack(a: ArtifactState)
    ensures ReadArtifact(ArtifactName(a)) == Some(a)
  {
  }

  lemma SeverityReadsBack(s: Severity)
    ensures ReadSeverity(SeverityDebug(s)) == Some(s)
  {
  }

  lemma VerdictReadsBack(v: Verdict)
    ensures ReadVerdict(VerdictDebug(v)) == Some(v)
  {
  }

  lemma TenantPhaseReadsBack(p: TenantPhase)
    ensures ReadTenantPhase(TenantPhaseName(p)) == Some(p)
  {
  }

  // ---- Members; what is missing or of another type reads as absent ----

  function TextAt(m: map<string, Json>, k: string): Option<string> {
    if k in m && m[k].Str? then Some(m[k].s) else None
  }

  function TimeAt(m: map<string, Json>, k: string): Option<Time> {
    if k in m && m[k].Num? then Some(m[k].n) else None
  }

  function Then<T, U>(o: Option<T>, f: T -> Option<U>): Option<U> {
    if o.Some? then f(o.value) else None
  }

  function ReadSummary(j: Json): Option<Summary> {
    var m := Members(j);
    var name, scanner, phase, count := TextAt(m, "name"), TextAt(m, "scanner"),
      Then(TextAt(m, "phase"), ReadJobPhase), TimeAt(m, "findingsCount");
    if name.Some? && scanner.Some? && |scanner.value| >= 3 && phase.Some? && count.Some? && count.value >= 0
    then Some(Summary(name.value, ReadKebab(scanner.value), phase.value, count.value)) else None
  }

  function ReadSummaries(items: seq<Json>): seq<Summary> {
    if items == [] then []
    else
      var one := ReadSummary(items[0]);
      (if one.Some? then [one.value] else []) + ReadSummaries(items[1..])
  }

  // The empty object is no action
  function ReadGate(decode: Json -> Option<TypedAction>, j: Json): Option<GateDecision> {
    var m := Members(j);
    var severity, verdict, at := Then(TextAt(m, "severity"), ReadSeverity), Then(TextAt(m, "verdict"), ReadVerdict),
      TimeAt(m, "decidedAt");
    if severity.Some? && verdict.Some? && at.Some? && "action" in m
    then Some(GateDecision(severity.value, verdict.value,
                           if m["action"] == Obj(map[]) then None else decode(m["action"]), at.value))
    else None
  }

  function ReadStoredReceipt(j: Json): Option<Receipt> {
    var m := Members(j);
    var hash, at := TextAt(m, "blake3Hash"), TimeAt(m, "signedAt");
    if hash.Some? && at.Some? then Some(Receipt(hash.value, at.value)) else None
  }

  function MemberOf(m: map<string, Json>, k: string): Option<Json> {
    if k in m then Some(m[k]) else None
  }

  function ReadStatus(decode: Json -> Option<TypedAction>, j: Json): ValidationStatus {
    var m := Members(j);
    ValidationStatus(
      Then(TextAt(m, "phase"), ReadPhase),
      TextAt(m, "ephemeralTenantRef"),
      if "scanJobs" in m && m["scanJobs"].Arr? then ReadSummaries(m["scanJobs"].items) else [],
      TextAt(m, "evidenceBundleHash"),
      Then(TextAt(m, "cartorioArtifactState"), ReadArtifact),
      Then(MemberOf(m, "gateDecision"), (g: Json) => ReadGate(decode, g)),
      Then(MemberOf(m, "outcomeReceiptRef"), ReadStoredReceipt),
      TimeAt(m, "startedAt"),
      TimeAt(m, "terminalAt"),
      TimeAt(m, "observedGeneration").GetOr(0))
  }

  function ReadTenant(j: Json): TenantStatus {
    var m := Members(j);
    TenantStatus(
      Then(TextAt(m, "phase"), ReadTenantPhase), TextAt(m, "ingressUrl"),
      Pods(m, "podsReady"), Pods(m, "podsTotal"),
      TimeAt(m, "allocatedAt"), TimeAt(m, "readyAt"), TimeAt(m, "teardownStartedAt"))
  }

  function Pods(m: map<string, Json>, k: string): nat {
    if k in m && m[k].Num? && m[k].n >= 0 then m[k].n else 0
  }

  // ---- Round trips ----

  lemma SummaryReadsBack(s: Summary)
    ensures ReadSummary(EncodeSummary(s)) == Some(s)
  {
    hide JobPhaseName, ReadJobPhase, ScannerKebab, ReadKebab;
    JobPhaseReadsBack(s.phase);
    KebabReadsBack(s.scanner);
  }

  lemma {:induction false} SummariesReadBack(ss: seq<Summary>)
    ensures ReadSummaries(EncodeSummaries(ss)) == ss
  {
    if ss != [] {
      hide EncodeSummary, ReadSummary;
      SummaryReadsBack(ss[0]);
      SummariesReadBack(ss[1..]);
      assert EncodeSummaries(ss)[1..] == EncodeSummaries(ss[1..]);
      assert ss == [ss[0]] + ss[1..];
    }
  }

  // How actions serialise and read back; none serialises as the empty object
  ghost predicate ReadsActions(encode: TypedAction -> Json, decode: Json -> Option<TypedAction>) {
    forall a :: decode(encode(a)) == Some(a) && encode(a) != Obj(map[])
  }

  lemma GateReadsBack(encode: TypedAction -> Json, decode: Json -> Option<TypedAction>, g: GateDecision)
    requires ReadsActions(encode, decode)
    ensures ReadGate(decode, EncodeGate(encode, g)) == Some(g)
  {
    hide SeverityDebug, VerdictDebug, ReadSeverity, ReadVerdict;
    SeverityReadsBack(g.severity);
    VerdictReadsBack(g.verdict);
  }

  lemma ReceiptDocReadsBack(r: Receipt)
    ensures ReadStoredReceipt(EncodeReceipt(r)) == Some(r)
  {
  }

  lemma FieldAtItsKey(encode: TypedAction -> Json, st: ValidationStatus, f: Field)
    ensures MemberOf(EncodeStatus(encode, st).members, Key(f)) == StatusMember(encode, st, f)
  {
    KeyNamesItsField(f);
    hide StatusMember, KEYS, FieldOf;
  }

  lemma KeysAre()
    ensures Key(PhaseField) == "phase" && Key(TenantField) == "ephemeralTenantRef" && Key(ScanJobsField) == "scanJobs"
    ensures Key(EvidenceField) == "evidenceBundleHash" && Key(CartorioField) == "cartorioArtifactState"
    ensures Key(GateField) == "gateDecision" && Key(ReceiptField) == "outcomeReceiptRef"
    ensures Key(StartedField) == "startedAt" && Key(TerminalField) == "terminalAt"
    ensures Key(GenerationField) == "observedGeneration"
  {
  }

  lemma NamedFieldsReadBack(encode: TypedAction -> Json, decode: Json -> Option<TypedAction>, st: ValidationStatus)
    ensures var r := ReadStatus(decode, EncodeStatus(encode, st));
            && r.phase == st.phase && r.tenantRef == st.tenantRef && r.evidenceHash == st.evidenceHash
            && r.cartorioState == st.cartorioState && r.startedAt == st.startedAt && r.terminalAt == st.terminalAt
            && r.observedGeneration == st.observedGeneration
  {
    hide PhaseName, ReadPhase, ArtifactName, ReadArtifact, EncodeStatus, Key, EncodeGate, EncodeSummaries,
      EncodeReceipt, ReadGate, ReadSummaries, ReadStoredReceipt;
    KeysAre();
    FieldAtItsKey(encode, st, PhaseField);
    FieldAtItsKey(encode, st, TenantField);
    FieldAtItsKey(encode, st, EvidenceField);
    FieldAtItsKey(encode, st, CartorioField);
    FieldAtItsKey(encode, st, StartedField);
    FieldAtItsKey(encode, st, TerminalField);
    FieldAtItsKey(encode, st, GenerationField);
    if st.phase.Some? { PhaseReadsBack(st.phase.value); }
    if st.cartorioState.Some? { ArtifactReadsBack(st.cartorioState.value); }
  }

  lemma NestedFieldsReadBack(encode: TypedAction -> Json, decode: Json -> Option<TypedAction>, st: ValidationStatus)
    requires ReadsActions(encode, decode)
    ensures var r := ReadStatus(decode, EncodeStatus(encode, st));
            r.scanJobs == st.scanJobs && r.gateDecision == st.gateDecision && r.receipt == st.receipt
  {
    hide PhaseName, ReadPhase, ArtifactName, ReadArtifact, EncodeStatus, Key, EncodeGate, EncodeSummaries,
      EncodeReceipt, ReadGate, ReadSummaries, ReadStoredReceipt;
    KeysAre();
    FieldAtItsKey(encode, st, ScanJobsField);
    FieldAtItsKey(encode, st, GateField);
    FieldAtItsKey(encode, st, ReceiptField);
    SummariesReadBack(st.scanJobs);
    if st.gateDecision.Some? { GateReadsBack(encode, decode, st.gateDecision.value); }
    if st.receipt.Some? { ReceiptDocReadsBack(st.receipt.value); }
  }

  // A stored status reads back as it was written: every field under its own key, every name as its own
  lemma StatusReadsBack(encode: TypedAction -> Json, decode: Json -> Option<TypedAction>, st: ValidationStatus)
    requires ReadsActions(encode, decode)
    ensures ReadStatus(decode, EncodeStatus(encode, st)) == st
  {
    hide ReadStatus, EncodeStatus;
    NamedFieldsReadBack(encode, decode, st);
    NestedFieldsReadBack(encode, decode, st);
  }

  lemma TenantKeysAre()
    ensures "phase" in TENANT_KEYS && "ingressUrl" in TENANT_KEYS && "podsReady" in TENANT_KEYS
    ensures "podsTotal" in TENANT_KEYS && "allocatedAt" in TENANT_KEYS && "readyAt" in TENANT_KEYS
    ensures "teardownStartedAt" in TENANT_KEYS
  {
    assert TENANT_KEYS[0] == "phase" && TENANT_KEYS[1] == "ingressUrl" && TENANT_KEYS[2] == "podsReady";
    assert TENANT_KEYS[3] == "podsTotal" && TENANT_KEYS[4] == "allocatedAt" && TENANT_KEYS[5] == "readyAt";
    assert TENANT_KEYS[6] == "teardownStartedAt";
  }

  lemma TenantMemberAt(st: TenantStatus, k: string)
    requires k in TENANT_KEYS
    ensures MemberOf(EncodeTenant(st).members, k) == TenantMember(st, k)
  {
    hide TENANT_KEYS, TenantMember;
  }

  lemma TenantMembersAre(st: TenantStatus)
    ensures TenantMember(st, "phase") == Map(st.phase, p => Str(TenantPhaseName(p)))
    ensures TenantMember(st, "ingressUrl") == Map(st.ingressUrl, u => Str(u))
    ensures TenantMember(st, "podsReady") == Some(Num(st.podsReady))
    ensures TenantMember(st, "podsTotal") == Some(Num(st.podsTotal))
    ensures TenantMember(st, "allocatedAt") == Map(st.allocatedAt, t => EncodeTime(t))
    ensures TenantMember(st, "readyAt") == Map(st.readyAt, t => EncodeTime(t))
    ensures TenantMember(st, "teardownStartedAt") == Map(st.teardownStartedAt, t => EncodeTime(t))
  {
    hide TenantPhaseName;
  }

  lemma TenantReadsBack(st: TenantStatus)
    ensures ReadTenant(EncodeTenant(st)) == st
  {
    hide TenantPhaseName, ReadTenantPhase, EncodeTenant, TenantMember, TENANT_KEYS;
    TenantKeysAre();
    TenantMembersAre(st);
    if st.phase.Some? { TenantPhaseReadsBack(st.phase.value); }
    TenantMemberAt(st, "phase");
    TenantMemberAt(st, "ingressUrl");
    TenantMemberAt(st, "podsReady");
    TenantMemberAt(st, "podsTotal");
    TenantMemberAt(st, "allocatedAt");
    TenantMemberAt(st, "readyAt");
    TenantMemberAt(st, "teardownStartedAt");
  }
}
