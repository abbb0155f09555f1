/** Status writes as the API server performs them: merge patches of encoded statuses, and when they are
    the overwrites the rest of the model takes them for. */
module StatusPatch {
  import opened Wrappers
  import opened MergePatch
  import opened Crds
  import opened Actions
  import opened Pipeline
  import opened PipelineHistory
  import opened ChildFindings
  import opened PipelineBackward

  // ---- When a merge patch is an overwrite ----

  // The patch has no null member, and wherever both are objects, every key of the target
  predicate Covered(t: Json, p: Json)
    decreases p
  {
    p.Obj? ==>
      && (forall k | k in Members(t) :: k in p.members)
      && (forall k | k in p.members :: !p.members[k].Null? && Covered(Entry(Members(t), k), p.members[k]))
  }

  lemma {:induction false} MergeOverwrites(t: Json, p: Json)
    ensures Merge(t, p) == p <==> Covered(t, p)
    decreases p
  {
    if p.Obj? {
      var base, m := Members(t), Merge(t, p).members;
      forall k | k in p.members && !p.members[k].Null?
        ensures k in m && (m[k] == p.members[k] <==> Covered(Entry(base, k), p.members[k]))
      {
        MergeOverwrites(Entry(base, k), p.members[k]);
      }
      if Covered(t, p) {
        assert m == p.members;
      }
      assert forall k | k in base && k !in p.members :: k in m;
      if Merge(t, p) == p {
        assert forall k | k in p.members :: k in m;
      }
    }
  }

  // Written where nothing was, a value arrives intact exactly when no object in it has a null member
  predicate NullFree(j: Json) {
    Covered(Null, j)
  }

  // ---- Encoding a status: absent when None, absent when empty ----

  function EncodeTime(t: Time): Json { Num(t) }

  function PhaseName(p: Phase): string {
    match p
    case Pending => "Pending" case Provisioning => "Provisioning" case Scanning => "Scanning"
    case Aggregating => "Aggregating" case Attesting => "Attesting" case Gating => "Gating"
    case Passed => "Passed" case Failed => "Failed" case Quarantined => "Quarantined"
  }

  function JobPhaseName(p: ScanJobPhase): string {
    match p
    case JobPending => "Pending" case Forking => "Forking" case Execing => "Execing" case Running => "Running"
    case Attested => "Attested" case Reconverging => "Reconverging" case Exiting => "Exiting"
    case JobFailed => "Failed" case Zombie => "Zombie" case JobReaped => "Reaped"
  }

  function ArtifactName(a: ArtifactState): string {
    match a
    case ArtifactPending => "Pending" case ArtifactActive => "Active" case ArtifactQuarantined => "Quarantined"
    case ArtifactRevoked => "Revoked" case ArtifactSuperseded => "Superseded"
  }

  function EncodeSummary(s: Summary): Json {
    Obj(map["name" := Str(s.name), "scanner" := Str(ScannerKebab(s.scanner)),
            "phase" := Str(JobPhaseName(s.phase)), "findingsCount" := Num(s.findingsCount)])
  }

  function EncodeSummaries(ss: seq<Summary>): seq<Json> {
    seq(|ss|, i requires 0 <= i < |ss| => EncodeSummary(ss[i]))
  }

  // `encode` is how a typed action serialises; a gate without one writes the empty object
  function EncodeAction(encode: TypedAction -> Json, g: GateDecision): Json {
    if g.action.Some? then encode(g.action.value) else Obj(map[])
  }

  function EncodeGate(encode: TypedAction -> Json, g: GateDecision): Json {
    Obj(map["severity" := Str(SeverityDebug(g.severity)), "verdict" := Str(VerdictDebug(g.verdict)),
            "action" := EncodeAction(encode, g), "decidedAt" := EncodeTime(g.decidedAt)])
  }

  function EncodeReceipt(r: Receipt): Json {
    Obj(map["blake3Hash" := Str(r.blake3Hash), "ed25519Sig" := Str(""), "signedAt" := EncodeTime(r.signedAt)])
  }

  datatype Field =
    | PhaseField | TenantField | ScanJobsField | EvidenceField | CartorioField | GateField | ReceiptField
    | StartedField | TerminalField | GenerationField
  {
    function Index(): nat {
      match this
      case PhaseField => 0 case TenantField => 1 case ScanJobsField => 2 case EvidenceField => 3 case CartorioField => 4
      case GateField => 5 case ReceiptField => 6 case StartedField => 7 case TerminalField => 8
      case GenerationField => 9
    }
  }

  const KEYS: seq<string> :=
    ["phase", "ephemeralTenantRef", "scanJobs", "evidenceBundleHash", "cartorioArtifactState",
     "gateDecision", "outcomeReceiptRef", "startedAt", "terminalAt", "observedGeneration"]

  function Key(f: Field): string { KEYS[f.Index()] }

  lemma KeysDiffer()
    ensures forall i, j | 0 <= i < j < |KEYS| :: KEYS[i] != KEYS[j]
  {
    // no two keys agree in length, first and last letter
    assert forall i, j | 0 <= i < j < |KEYS| ::
        |KEYS[i]| != |KEYS[j]| || KEYS[i][0] != KEYS[j][0] || KEYS[i][|KEYS[i]| - 1] != KEYS[j][|KEYS[j]| - 1];
  }

  // The field a key names
  function FieldOf(k: string): Field {
    if k == KEYS[0] then PhaseField else if k == KEYS[1] then TenantField else if k == KEYS[2] then ScanJobsField
    else if k == KEYS[3] then EvidenceField else if k == KEYS[4] then CartorioField else if k == KEYS[5] then GateField
    else if k == KEYS[6] then ReceiptField else if k == KEYS[7] then StartedField
    else if k == KEYS[8] then TerminalField
    else GenerationField
  }

  lemma KeyNamesItsField(f: Field)
    ensures Key(f) in KEYS && FieldOf(Key(f)) == f
  {
    KeysDiffer();
  }

  function Map<T, U>(o: Option<T>, f: T -> U): Option<U> {
    if o.Some? then Some(f(o.value)) else None
  }

  function StatusMember(encode: TypedAction -> Json, st: ValidationStatus, f: Field): Option<Json> {
    match f
    case PhaseField => Map(st.phase, p => Str(PhaseName(p)))
    case TenantField => Map(st.tenantRef, s => Str(s))
    case ScanJobsField => if st.scanJobs == [] then None else Some(Arr(EncodeSummaries(st.scanJobs)))
    case EvidenceField => Map(st.evidenceHash, s => Str(s))
    case CartorioField => Map(st.cartorioState, a => Str(ArtifactName(a)))
    case GateField => Map(st.gateDecision, g => EncodeGate(encode, g))
    case ReceiptField => Map(st.receipt, r => EncodeReceipt(r))
    case StartedField => Map(st.startedAt, t => EncodeTime(t))
    case TerminalField => Map(st.terminalAt, t => EncodeTime(t))
    case GenerationField => Some(Num(st.observedGeneration))
  }

  function MemberAt(encode: TypedAction -> Json, st: ValidationStatus, k: string): Option<Json> {
    StatusMember(encode, st, FieldOf(k))
  }

  function EncodeStatus(encode: TypedAction -> Json, st: ValidationStatus): (r: Json)
    ensures r.Obj?
  {
    Obj(map k | k in KEYS && MemberAt(encode, st, k).Some? :: MemberAt(encode, st, k).value)
  }

  // ---- Status writes of the pipeline ----

  // Nothing that the old status has is missing from the new one
  predicate Keeps(a: ValidationStatus, b: ValidationStatus) {
    && (a.phase.Some? ==> b.phase.Some?) && (a.tenantRef.Some? ==> b.tenantRef.Some?)
    && (a.scanJobs != [] ==> b.scanJobs != []) && (a.evidenceHash.Some? ==> b.evidenceHash.Some?)
    && (a.cartorioState.Some? ==> b.cartorioState.Some?) && (a.gateDecision.Some? ==> b.gateDecision.Some?)
    && (a.receipt.Some? ==> b.receipt.Some?) && (a.startedAt.Some? ==> b.startedAt.Some?)
    && (a.terminalAt.Some? ==> b.terminalAt.Some?)
  }

  function ActionDoc(encode: TypedAction -> Json, st: ValidationStatus): Json {
    if st.gateDecision.Some? then EncodeAction(encode, st.gateDecision.value) else Null
  }

  lemma GateCovered(encode: TypedAction -> Json, a: Option<GateDecision>, b: GateDecision)
    ensures Covered(if a.Some? then EncodeGate(encode, a.value) else Null, EncodeGate(encode, b)) <==>
            var stored := if a.Some? then EncodeAction(encode, a.value) else Null;
            EncodeAction(encode, b) != Null && Covered(stored, EncodeAction(encode, b))
  {
    var t, p := if a.Some? then EncodeGate(encode, a.value) else Null, EncodeGate(encode, b);
    hide EncodeAction;
    assert forall k | k in Members(t) :: k in p.members;
    assert forall k | k in p.members && k != "action" ::
        !p.members[k].Null? && Covered(Entry(Members(t), k), p.members[k]);
    assert "action" in p.members;
  }

  // A status write is an overwrite exactly when the new status keeps every field of the old one and the
  // gate's action survives the merge
  lemma StatusMergeOverwrites(encode: TypedAction -> Json, a: ValidationStatus, b: ValidationStatus)
    ensures Merge(EncodeStatus(encode, a), EncodeStatus(encode, b)) == EncodeStatus(encode, b) <==>
            && Keeps(a, b)
            && (b.gateDecision.Some? ==>
                  ActionDoc(encode, b) != Null && Covered(ActionDoc(encode, a), ActionDoc(encode, b)))
  {
    MergeOverwrites(EncodeStatus(encode, a), EncodeStatus(encode, b));
    if b.gateDecision.Some? {
      GateCovered(encode, a.gateDecision, b.gateDecision.value);
    }
    MembersCovered(encode, a, b);
    AllKeysCovered(encode, a, b);
    KeepsIsFieldwise(encode, a, b);
    hide Merge, EncodeGate, EncodeAction, EncodeStatus, Covered, Keeps, KEYS, MemberAt;
    var stored := StatusMember(encode, a, GateField).GetOr(Null);
    assert stored == if a.gateDecision.Some? then EncodeGate(encode, a.gateDecision.value) else Null;
  }

  lemma KeepsIsFieldwise(encode: TypedAction -> Json, a: ValidationStatus, b: ValidationStatus)
    ensures Keeps(a, b) <==> forall k | k in KEYS :: MemberAt(encode, a, k).Some? ==> MemberAt(encode, b, k).Some?
  {
    hide EncodeGate, EncodeSummaries, KEYS, FieldOf;
    if forall k | k in KEYS :: MemberAt(encode, a, k).Some? ==> MemberAt(encode, b, k).Some? {
      forall f: Field ensures StatusMember(encode, a, f).Some? ==> StatusMember(encode, b, f).Some? {
        KeyNamesItsField(f);
        assert MemberAt(encode, a, Key(f)).Some? ==> MemberAt(encode, b, Key(f)).Some?;
      }
      assert Keeps(a, b) by { EachFieldKept(encode, a, b); }
    }
  }

  lemma EachFieldKept(encode: TypedAction -> Json, a: ValidationStatus, b: ValidationStatus)
    requires forall f: Field :: StatusMember(encode, a, f).Some? ==> StatusMember(encode, b, f).Some?
    ensures Keeps(a, b)
  {
    hide EncodeGate, EncodeSummaries;
    assert StatusMember(encode, a, PhaseField).Some? ==> StatusMember(encode, b, PhaseField).Some?;
    assert StatusMember(encode, a, TenantField).Some? ==> StatusMember(encode, b, TenantField).Some?;
    assert StatusMember(encode, a, ScanJobsField).Some? ==> StatusMember(encode, b, ScanJobsField).Some?;
    assert StatusMember(encode, a, EvidenceField).Some? ==> StatusMember(encode, b, EvidenceField).Some?;
    assert StatusMember(encode, a, CartorioField).Some? ==> StatusMember(encode, b, CartorioField).Some?;
    assert StatusMember(encode, a, GateField).Some? ==> StatusMember(encode, b, GateField).Some?;
    assert StatusMember(encode, a, ReceiptField).Some? ==> StatusMember(encode, b, ReceiptField).Some?;
    assert StatusMember(encode, a, StartedField).Some? ==> StatusMember(encode, b, StartedField).Some?;
    assert StatusMember(encode, a, TerminalField).Some? ==> StatusMember(encode, b, TerminalField).Some?;
  }

  lemma ReceiptCovered(a: Option<Receipt>, b: Receipt)
    ensures Covered(if a.Some? then EncodeReceipt(a.value) else Null, EncodeReceipt(b))
  {
    var t, p := if a.Some? then EncodeReceipt(a.value) else Null, EncodeReceipt(b);
    forall k | k in p.members ensures !p.members[k].Null? && Covered(Entry(Members(t), k), p.members[k]) {
      assert k in {"blake3Hash", "ed25519Sig", "signedAt"};
    }
    assert forall k | k in Members(t) :: k in p.members;
  }

  lemma MemberCovered(encode: TypedAction -> Json, a: ValidationStatus, b: ValidationStatus, f: Field)
    requires !f.GateField? && StatusMember(encode, b, f).Some?
    ensures var p := StatusMember(encode, b, f).value;
            !p.Null? && Covered(StatusMember(encode, a, f).GetOr(Null), p)
  {
    hide EncodeGate, EncodeSummaries, EncodeReceipt;
    if f.ReceiptField? {
      ReceiptCovered(a.receipt, b.receipt.value);
      ReceiptIsObject(b.receipt.value);
    }
  }

  lemma ReceiptIsObject(r: Receipt)
    ensures EncodeReceipt(r).Obj?
  {
  }

  lemma MembersCovered(encode: TypedAction -> Json, a: ValidationStatus, b: ValidationStatus)
    ensures Covered(EncodeStatus(encode, a), EncodeStatus(encode, b)) <==>
            && (forall k | k in KEYS :: MemberAt(encode, a, k).Some? ==> MemberAt(encode, b, k).Some?)
            && (forall k | k in KEYS && MemberAt(encode, b, k).Some? ::
                  !MemberAt(encode, b, k).value.Null? && Covered(MemberAt(encode, a, k).GetOr(Null),
                    MemberAt(encode, b, k).value))
  {
    hide MemberAt;
    var t, p := EncodeStatus(encode, a), EncodeStatus(encode, b);
    assert forall k :: k in t.members <==> k in KEYS && MemberAt(encode, a, k).Some?;
    assert forall k :: k in p.members <==> k in KEYS && MemberAt(encode, b, k).Some?;
    assert forall k | k in p.members :: Entry(t.members, k) == MemberAt(encode, a, k).GetOr(Null);
  }

  lemma AllKeysCovered(encode: TypedAction -> Json, a: ValidationStatus, b: ValidationStatus)
    ensures (forall k | k in KEYS && MemberAt(encode, b, k).Some? ::
               !MemberAt(encode, b, k).value.Null? && Covered(MemberAt(encode, a, k).GetOr(Null),
                 MemberAt(encode, b, k).value))
            <==> (b.gateDecision.Some? ==>
                    Covered(StatusMember(encode, a, GateField).GetOr(Null), StatusMember(encode, b, GateField).value))
  {
    GateIsObject(encode, b);
    KeyNamesItsField(GateField);
    hide Covered, KEYS, StatusMember, FieldOf;
    forall k | k in KEYS && MemberAt(encode, b, k).Some? && FieldOf(k) != GateField
      ensures !MemberAt(encode, b, k).value.Null? &&
        Covered(MemberAt(encode, a, k).GetOr(Null), MemberAt(encode, b, k).value)
    {
      MemberCovered(encode, a, b, FieldOf(k));
    }
  }

  lemma GateIsObject(encode: TypedAction -> Json, b: ValidationStatus)
    ensures b.gateDecision.Some? <==> StatusMember(encode, b, GateField).Some?
    ensures b.gateDecision.Some? ==> StatusMember(encode, b, GateField).value.Obj?
  {
  }

  // ---- Stored documents ----

  // A stored object: its status, absent until the first write, beside everything else
  function Document(encode: TypedAction -> Json, rest: map<string, Json>, st: Option<ValidationStatus>): Json {
    Obj(if st.Some? then rest["status" := EncodeStatus(encode, st.value)] else rest - {"status"})
  }

  function StatusWrite(status: Json): Json {
    Obj(map["status" := status])
  }

  lemma FirstWrite(encode: TypedAction -> Json, b: ValidationStatus)
    ensures Covered(Null, EncodeStatus(encode, b)) <==>
      Covered(EncodeStatus(encode, DEFAULT_STATUS), EncodeStatus(encode, b))
  {
    hide EncodeGate, EncodeReceipt, EncodeSummaries, KEYS, FieldOf;
    var t, p := EncodeStatus(encode, DEFAULT_STATUS), EncodeStatus(encode, b);
    assert forall k | k in t.members :: k in p.members && !p.members[k].Obj?;
    assert forall k | k in p.members && k !in t.members :: Entry(t.members, k) == Null;
  }

  // The stored document after the write is the one with the new status exactly when nothing got lost
  lemma WriteReplacesTheStatus(encode: TypedAction -> Json, rest: map<string, Json>, a: Option<ValidationStatus>,
    b: ValidationStatus)
    ensures Merge(Document(encode, rest, a), StatusWrite(EncodeStatus(encode, b))) ==
            Document(encode, rest, Some(b)) <==>
            && Keeps(a.GetOr(DEFAULT_STATUS), b)
            && (b.gateDecision.Some? ==>
                  ActionDoc(encode, b) != Null && Covered(ActionDoc(encode, a.GetOr(DEFAULT_STATUS)),
                    ActionDoc(encode, b)))
  {
    hide EncodeStatus, ActionDoc, Keeps, Covered;
    var t, p := Document(encode, rest, a), StatusWrite(EncodeStatus(encode, b));
    var stored := Entry(t.members, "status");
    assert Merge(t, p).members == t.members["status" := Merge(stored, EncodeStatus(encode, b))];
    assert Document(encode, rest, Some(b)).members == t.members["status" := EncodeStatus(encode, b)];
    assert Merge(t, p) == Document(encode, rest, Some(b)) <==>
      Merge(stored, EncodeStatus(encode, b)) == EncodeStatus(encode, b) by {
      assert Merge(t, p).members["status"] == Merge(stored, EncodeStatus(encode, b));
    }
    StatusMergeOverwrites(encode, a.GetOr(DEFAULT_STATUS), b);
    MergeOverwrites(stored, EncodeStatus(encode, b));
    MergeOverwrites(EncodeStatus(encode, a.GetOr(DEFAULT_STATUS)), EncodeStatus(encode, b));
    FirstWrite(encode, b);
  }

  lemma PlanKeepsSummaries(cfg: Config, c: Cluster, n: string, listing: seq<string>, now: Time)
    requires n in c.validations && Lists(c, n, listing)
    ensures var next := PlanOf(cfg, c, n, listing, now).next;
            next.Some? && c.validations[n].Status().scanJobs != [] ==> next.value.scanJobs != []
  {
    hide RequiredScanners, GateOf;
    RequiredScannersFacts(cfg);
    assert RequiredScanners(cfg) != [];
  }

  lemma PlanKeepsFields(cfg: Config, c: Cluster, n: string, listing: seq<string>, now: Time)
    requires n in c.validations && Lists(c, n, listing) && Shape(n, c.validations[n])
    ensures var v, next := c.validations[n], PlanOf(cfg, c, n, listing, now).next;
            next.Some? ==>
              Keeps(v.Status(), next.value) && (next.value.gateDecision.Some? ==> v.Status().gateDecision.None?)
  {
    PlanIsSound(cfg, c, n, listing, now);
    PlanKeepsSummaries(cfg, c, n, listing, now);
    hide PlanOf, Lists;
  }

  // Over every run, deletes included: a reconcile's status write, performed as a merge patch, replaces the
  // stored status by the planned one. The one exception is a gate whose action serialises with a null member.
  lemma ReconcilesOverwriteTheStatus(cfg: Config, encode: TypedAction -> Json, steps: seq<Step>, n: string,
    rest: map<string, Json>)
    requires var s := Run(cfg, EMPTY_SYSTEM, steps);
             n in s.flights && s.flights[n].done == |s.flights[n].plan.creates| && s.flights[n].plan.next.Some?
    ensures var s := Run(cfg, EMPTY_SYSTEM, steps);
            var next := s.flights[n].plan.next.value;
            && n in s.c.validations
            && Next(cfg, s, Continue(n)).c.validations ==
              s.c.validations[n := s.c.validations[n].(status := Some(next))]
            && (Merge(Document(encode, rest, s.c.validations[n].status), StatusWrite(EncodeStatus(encode, next)))
                  == Document(encode, rest, Some(next)) <==>
                (next.gateDecision.Some? ==> ActionDoc(encode, next) != Null && NullFree(ActionDoc(encode, next))))
  {
    var s := Run(cfg, EMPTY_SYSTEM, steps);
    HistoryHolds(cfg, steps);
    PlannedHolds(cfg, steps);
    hide Run;
    WriteFromFlight(cfg, encode, s, n, rest);
  }

  lemma WriteFromFlight(cfg: Config, encode: TypedAction -> Json, s: System, n: string, rest: map<string, Json>)
    requires HistoryOk(s) && Planned(cfg, s)
    requires n in s.flights && s.flights[n].done == |s.flights[n].plan.creates| && s.flights[n].plan.next.Some?
    ensures var next := s.flights[n].plan.next.value;
            && n in s.c.validations
            && Next(cfg, s, Continue(n)).c.validations ==
              s.c.validations[n := s.c.validations[n].(status := Some(next))]
            && (Merge(Document(encode, rest, s.c.validations[n].status), StatusWrite(EncodeStatus(encode, next)))
                  == Document(encode, rest, Some(next)) <==>
                (next.gateDecision.Some? ==> ActionDoc(encode, next) != Null && NullFree(ActionDoc(encode, next))))
  {
    hide EventsOk, DispatchOk, EventsKnown, Shape, Grows, Edge, ValidationsOk, Merge, Document, EncodeStatus, Keeps,
        PlanOf,
      ContinueFlight, EncodeAction;
    var f := s.flights[n];
    assert FlightOk(s.c, n, f);
    ContinuedValidations(s, n);
    assert Next(cfg, s, Continue(n)) == ContinueFlight(s, n);
    PlanKeepsFields(cfg, f.read, n, f.listing, f.now);
    WriteReplacesTheStatus(encode, rest, f.v.status, f.plan.next.value);
  }

  // The appender's patch sets the receipt and changes nothing else
  lemma ReceiptWriteIsLocal(encode: TypedAction -> Json, rest: map<string, Json>, st: ValidationStatus, r: Receipt)
    ensures Merge(Document(encode, rest, Some(st)), StatusWrite(Obj(map["outcomeReceiptRef" := EncodeReceipt(r)])))
            == Document(encode, rest, Some(st.(receipt := Some(r))))
  {
    hide EncodeStatus, EncodeReceipt, Merge;
    EncodedWithReceipt(encode, st, r);
    ReceiptCovered(st.receipt, r);
    MergeOverwrites(if st.receipt.Some? then EncodeReceipt(st.receipt.value) else Null, EncodeReceipt(r));
    ReceiptIsObject(r);
    OneMemberMerge(EncodeStatus(encode, st).members, "outcomeReceiptRef", EncodeReceipt(r));
    OneMemberMerge(Document(encode, rest, Some(st)).members, "status",
      Obj(map["outcomeReceiptRef" := EncodeReceipt(r)]));
  }

  lemma OneMemberMerge(base: map<string, Json>, k: string, p: Json)
    requires !p.Null?
    ensures Merge(Obj(base), Obj(map[k := p])) == Obj(base[k := Merge(Entry(base, k), p)])
  {
    assert Merge(Obj(base), Obj(map[k := p])).members == base[k := Merge(Entry(base, k), p)];
  }

  lemma EncodedWithReceipt(encode: TypedAction -> Json, st: ValidationStatus, r: Receipt)
    ensures EncodeStatus(encode, st.(receipt := Some(r))) ==
      Obj(EncodeStatus(encode, st).members["outcomeReceiptRef" := EncodeReceipt(r)])
    ensures Entry(EncodeStatus(encode, st).members, "outcomeReceiptRef") ==
            if st.receipt.Some? then EncodeReceipt(st.receipt.value) else Null
  {
    OtherMembersStay(encode, st, r);
    hide MemberAt, EncodeReceipt, KEYS, FieldOf;
    assert EncodeStatus(encode, st.(receipt := Some(r))).members ==
      EncodeStatus(encode, st).members["outcomeReceiptRef" := EncodeReceipt(r)];
  }

  lemma OtherMembersStay(encode: TypedAction -> Json, st: ValidationStatus, r: Receipt)
    ensures "outcomeReceiptRef" in KEYS && FieldOf("outcomeReceiptRef") == ReceiptField
    ensures forall k | k in KEYS && k != "outcomeReceiptRef" ::
              MemberAt(encode, st.(receipt := Some(r)), k) == MemberAt(encode, st, k)
    ensures MemberAt(encode, st, "outcomeReceiptRef") == Map(st.receipt, r => EncodeReceipt(r))
    ensures MemberAt(encode, st.(receipt := Some(r)), "outcomeReceiptRef") == Some(EncodeReceipt(r))
  {
    hide EncodeGate, EncodeReceipt, EncodeSummaries;
    KeyNamesItsField(ReceiptField);
    forall k | k in KEYS && FieldOf(k) == ReceiptField ensures k == "outcomeReceiptRef" {
    }
  }

  // ---- Tenant statuses ----

  const TENANT_KEYS: seq<string> :=
    ["phase", "ingressUrl", "podsReady", "podsTotal", "allocatedAt", "readyAt", "teardownStartedAt"]

  function TenantPhaseName(p: TenantPhase): string {
    match p
    case TenantPending => "Pending" case InfraProvisioning => "InfraProvisioning"
    case ChartRendering => "ChartRendering"
    case PodsRunning => "PodsRunning" case Ready => "Ready" case TenantScanning => "Scanning"
    case Teardown => "Teardown" case TenantReaped => "Reaped" case TenantFailed => "Failed"
  }

  function TenantMember(st: TenantStatus, k: string): Option<Json> {
    if k == "phase" then Map(st.phase, p => Str(TenantPhaseName(p)))
    else if k == "ingressUrl" then Map(st.ingressUrl, u => Str(u))
    else if k == "podsReady" then Some(Num(st.podsReady))
    else if k == "podsTotal" then Some(Num(st.podsTotal))
    else if k == "allocatedAt" then Map(st.allocatedAt, t => EncodeTime(t))
    else if k == "readyAt" then Map(st.readyAt, t => EncodeTime(t))
    else Map(st.teardownStartedAt, t => EncodeTime(t))
  }

  function EncodeTenant(st: TenantStatus): (r: Json)
    ensures r.Obj?
  {
    Obj(map k | k in TENANT_KEYS && TenantMember(st, k).Some? :: TenantMember(st, k).value)
  }

  // What the model stores after a tenant's status write is what the API server's merge leaves
  lemma TenantPatchedIsTheMerge(stored: TenantStatus, next: TenantStatus)
    ensures Merge(EncodeTenant(stored), EncodeTenant(next)) == EncodeTenant(TenantPatched(stored, next))
  {
    hide TENANT_KEYS;
    var t, p, r := EncodeTenant(stored), EncodeTenant(next), EncodeTenant(TenantPatched(stored, next));
    forall k ensures TenantMember(TenantPatched(stored, next), k) == TenantMember(next, k).Or(TenantMember(stored, k)) {
    }
    forall k ensures TenantMember(next, k).Some? ==>
      !TenantMember(next, k).value.Null? && !TenantMember(next, k).value.Obj? {
    }
    hide TenantMember, TenantPatched;
    assert Merge(t, p).members == r.members;
  }

  // The status a tenant reconcile meant to store is stored, except that withdrawing the target does not
  // withdraw the URL: the tenant is then ready, with no pods, under the old URL
  lemma OnlyTheUrlOutlivesItsTarget(t: Tenant, target: Target, now: Time)
    requires TenantNext(t, target, now).Some?
    ensures var next := TenantNext(t, target, now).value;
            var after := TenantAfter(t, target, now).status.value;
            var url := t.status.GetOr(DEFAULT_TENANT_STATUS).ingressUrl;
            && (after == next <==> (target.NoTargetFed? && t.Phase() != Teardown ==> url.None?))
            && after == next.(ingressUrl := next.ingressUrl.Or(url))
  {
  }
}
