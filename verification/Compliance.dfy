/** The compliance views of the API: what the REST and the GraphQL loop report over the same validations. */
module Compliance {
  import opened Wrappers
  import opened Crds
  import opened StableOrder
  import opened Pipeline
  import opened PipelineHistory
  import opened Gates
  import opened ChildFindings
  import opened StatusPatch
  import opened Subsequences

  datatype ComplianceSummary = ComplianceSummary(
    total: nat, byPhase: map<string, nat>, byVerdict: map<string, nat>, state: Severity, blocking: seq<string>)

  predicate Blocks(v: Validation) {
    var gate := v.Status().gateDecision;
    gate.Some? && (gate.value.verdict == VerdictFailed || gate.value.verdict == VerdictQuarantined)
  }

  predicate Judged(v: Validation, s: Severity) {
    var gate := v.Status().gateDecision;
    gate.Some? && gate.value.severity == s
  }

  // ---- What is reported, said without a loop ----

  ghost function RestState(vs: seq<Validation>): Severity {
    if exists v :: v in vs && Blocks(v) then Critical
    else if exists v :: v in vs && Judged(v, Functional) then Functional
    else Cosmetic
  }

  ghost function GraphState(vs: seq<Validation>): Severity {
    if exists v :: v in vs && Judged(v, Critical) then Critical
    else if exists v :: v in vs && Judged(v, Functional) then Functional
    else Cosmetic
  }

  function Blocking(vs: seq<Validation>): seq<string> {
    if vs == [] then []
    else var n := |vs| - 1; Blocking(vs[..n]) + if Blocks(vs[n]) then [vs[n].imageDigest] else []
  }

  function ShownPhase(v: Validation): string {
    if v.Status().phase.Some? then PhaseName(v.Status().phase.value) else "Unknown"
  }

  function ShownVerdict(v: Validation): string {
    var gate := v.Status().gateDecision;
    if gate.Some? then VerdictDebug(gate.value.verdict) else ""
  }

  // How many validations show this name
  function Tally(vs: seq<Validation>, show: Validation -> string, name: string): nat {
    if vs == [] then 0
    else var n := |vs| - 1; Tally(vs[..n], show, name) + if show(vs[n]) == name then 1 else 0
  }

  function At(counts: map<string, nat>, name: string): nat {
    if name in counts then counts[name] else 0
  }

  function Bump(counts: map<string, nat>, name: string): map<string, nat> {
    counts[name := At(counts, name) + 1]
  }

  // ---- The loops ----

  method Summarise(vs: seq<Validation>) returns (r: ComplianceSummary)
    ensures r.total == |vs| && r.state == RestState(vs) && r.blocking == Blocking(vs)
    ensures forall name :: At(r.byPhase, name) == Tally(vs, ShownPhase, name)
    ensures forall name | name != "" :: At(r.byVerdict, name) == Tally(vs, ShownVerdict, name)
  {
    hide RestState, Tally, At, Bump, ShownPhase;
    NothingTallied(ShownPhase);
    NothingTallied(ShownVerdict);
    var byPhase: map<string, nat>, byVerdict: map<string, nat>, blocking := map[], map[], [];
    var state := Cosmetic;
    for i := 0 to |vs|
      invariant forall name :: At(byPhase, name) == Tally(vs[..i], ShownPhase, name)
      invariant forall name | name != "" :: At(byVerdict, name) == Tally(vs[..i], ShownVerdict, name)
      invariant blocking == Blocking(vs[..i]) && state == RestState(vs[..i])
    {
      var v := vs[i];
      assert vs[..i + 1] == vs[..i] + [v] && vs[..i + 1][..i] == vs[..i];
      RestStateSnoc(vs[..i], v);
      BumpTallies(vs[..i], v, ShownPhase, byPhase);
      BumpTallies(vs[..i], v, ShownVerdict, byVerdict);
      byPhase := Bump(byPhase, ShownPhase(v));
      var gate := v.Status().gateDecision;
      if gate.Some? {
        byVerdict := Bump(byVerdict, VerdictDebug(gate.value.verdict));
        if gate.value.verdict == VerdictFailed || gate.value.verdict == VerdictQuarantined {
          blocking := blocking + [v.imageDigest];
          state := Critical;
        } else if state == Cosmetic && gate.value.severity == Functional {
          state := Functional;
        }
      }
    }
    assert vs[..|vs|] == vs;
    return ComplianceSummary(|vs|, byPhase, byVerdict, state, blocking);
  }

  lemma RestStateSnoc(vs: seq<Validation>, v: Validation)
    ensures RestState(vs + [v]) ==
            if Blocks(v) then Critical
            else if RestState(vs) == Cosmetic && Judged(v, Functional) then Functional
            else RestState(vs)
  {
    hide Blocks, Judged;
    assert forall u :: u in vs + [v] <==> u in vs || u == v;
    assert v in vs + [v];
  }

  lemma NothingTallied(show: Validation -> string)
    ensures forall name :: At(map[], name) == Tally([], show, name)
    ensures RestState([]) == Cosmetic
  {
  }

  lemma BumpTallies(vs: seq<Validation>, v: Validation, show: Validation -> string, counts: map<string, nat>)
    ensures forall name :: At(counts, name) == Tally(vs, show, name) ==>
              At(Bump(counts, show(v)), name) == Tally(vs + [v], show, name)
    ensures forall name :: show(v) != name ==> Tally(vs + [v], show, name) == Tally(vs, show, name)
  {
    assert (vs + [v])[..|vs|] == vs;
  }

  method ComplianceState(vs: seq<Validation>) returns (state: Severity)
    ensures state == GraphState(vs)
  {
    state := Cosmetic;
    for i := 0 to |vs|
      invariant forall v | v in vs[..i] :: !Judged(v, Critical)
      invariant state == GraphState(vs[..i])
    {
      assert vs[..i + 1] == vs[..i] + [vs[i]];
      GraphStateSnoc(vs[..i], vs[i]);
      var gate := vs[i].Status().gateDecision;
      if gate.Some? {
        if gate.value.severity == Critical {
          assert vs[i] in vs && Judged(vs[i], Critical);
          return Critical;
        }
        if gate.value.severity == Functional && state == Cosmetic {
          state := Functional;
        }
      }
    }
    assert vs[..|vs|] == vs;
  }

  lemma GraphStateSnoc(vs: seq<Validation>, v: Validation)
    ensures GraphState(vs + [v]) ==
            if Judged(v, Critical) then Critical
            else if GraphState(vs) == Cosmetic && Judged(v, Functional) then Functional
            else GraphState(vs)
  {
    hide Judged;
    assert forall u :: u in vs + [v] <==> u in vs || u == v;
    assert v in vs + [v];
  }

  // ---- What the two states say ----

  lemma StatesInPlainWords(vs: seq<Validation>)
    ensures RestState(vs) == Critical <==> exists v :: v in vs && Stopped(v)
    ensures GraphState(vs) == Critical <==> exists v :: v in vs && Severe(v, Critical)
    ensures RestState(vs) == Functional <==>
              (forall v | v in vs :: !Stopped(v)) && exists v :: v in vs && Severe(v, Functional)
    ensures GraphState(vs) == Functional <==>
              (forall v | v in vs :: !Severe(v, Critical)) && exists v :: v in vs && Severe(v, Functional)
  {
    forall v ensures (Blocks(v) <==> Stopped(v)) && (Judged(v, Critical) <==> Severe(v, Critical)) &&
      (Judged(v, Functional) <==> Severe(v, Functional)) {
    }
    hide Blocks, Stopped, Judged, Severe;
  }

  predicate Severe(v: Validation, s: Severity) {
    match v.Status().gateDecision
    case Some(g) => g.severity == s
    case None => false
  }

  // ---- What the two views have to do with each other ----

  // They agree exactly when some validation blocks if and only if some severity is critical
  lemma ViewsAgree(vs: seq<Validation>)
    ensures RestState(vs) == GraphState(vs) <==>
            ((exists v :: v in vs && Stopped(v)) <==> (exists v :: v in vs && Severe(v, Critical)))
  {
    StatesInPlainWords(vs);
    hide Stopped, Severe;
  }

  // Failed, or waiting for a person
  predicate Stopped(v: Validation) {
    v.Status().gateDecision.Some? && v.Status().gateDecision.value.verdict in {VerdictFailed, VerdictQuarantined}
  }

  lemma {:induction false} OneEntryPerBlockingValidation(vs: seq<Validation>)
    ensures |Blocking(vs)| == Tally(vs, v => if Stopped(v) then "blocks" else "", "blocks")
    ensures forall d :: d in Blocking(vs) <==> exists v :: v in vs && Stopped(v) && v.imageDigest == d
  {
    if vs != [] {
      var n := |vs| - 1;
      OneEntryPerBlockingValidation(vs[..n]);
      assert forall v :: v in vs <==> v in vs[..n] || v == vs[n];
    }
  }

  // The digests of the blocking validations, in the order of the validations
  lemma {:induction false} BlockingIsInOrder(vs: seq<Validation>)
    ensures Blocking(vs) == Kept(Digests(vs), BlocksAt(vs))
  {
    hide Blocks;
    if vs != [] {
      var n := |vs| - 1;
      BlockingIsInOrder(vs[..n]);
      assert Digests(vs)[..n] == Digests(vs[..n]);
      SameKept(Digests(vs[..n]), BlocksAt(vs[..n]), BlocksAt(vs));
    }
  }

  function BlocksAt(vs: seq<Validation>): nat -> bool {
    (i: nat) => i < |vs| && Blocks(vs[i])
  }

  function Digests(vs: seq<Validation>): seq<string> {
    seq(|vs|, i requires 0 <= i < |vs| => vs[i].imageDigest)
  }

  // ---- Counts by name ----

  ghost predicate ShowsPhase(v: Validation, name: string) {
    match v.Status().phase
    case None => name == "Unknown"
    case Some(Pending) => name == "Pending"
    case Some(Provisioning) => name == "Provisioning"
    case Some(Scanning) => name == "Scanning"
    case Some(Aggregating) => name == "Aggregating"
    case Some(Attesting) => name == "Attesting"
    case Some(Gating) => name == "Gating"
    case Some(Passed) => name == "Passed"
    case Some(Failed) => name == "Failed"
    case Some(Quarantined) => name == "Quarantined"
  }

  ghost predicate ShowsVerdict(v: Validation, name: string) {
    var gate := v.Status().gateDecision;
    gate.Some? &&
    match gate.value.verdict
    case VerdictPassed => name == "Passed"
    case VerdictFailed => name == "Failed"
    case VerdictQuarantined => name == "Quarantined"
  }

  function PlacesOf(vs: seq<Validation>, show: Validation -> string, name: string): set<int> {
    set i | 0 <= i < |vs| && show(vs[i]) == name
  }

  lemma PlacesOfSnoc(vs: seq<Validation>, v: Validation, show: Validation -> string, name: string)
    ensures PlacesOf(vs + [v], show, name) == PlacesOf(vs, show, name) + if show(v) == name then {|vs|} else {}
    ensures |vs| !in PlacesOf(vs, show, name)
  {
  }

  lemma {:induction false} TallyCounts(vs: seq<Validation>, show: Validation -> string, name: string)
    ensures Tally(vs, show, name) == |PlacesOf(vs, show, name)|
  {
    if vs == [] {
      assert PlacesOf(vs, show, name) == {};
    } else {
      var n := |vs| - 1;
      TallyCounts(vs[..n], show, name);
      PlacesOfSnoc(vs[..n], vs[n], show, name);
      assert vs == vs[..n] + [vs[n]];
      hide PlacesOf;
    }
  }

  lemma ShownMeans(v: Validation, name: string)
    ensures ShownPhase(v) == name <==> ShowsPhase(v, name)
    ensures name != "" ==> (ShownVerdict(v) == name <==> ShowsVerdict(v, name))
  {
  }

  // Each phase and each verdict is counted under its own name
  lemma CountsByName(vs: seq<Validation>, name: string)
    ensures Tally(vs, ShownPhase, name) == |set i | 0 <= i < |vs| && ShowsPhase(vs[i], name)|
    ensures name != "" ==> Tally(vs, ShownVerdict, name) == |set i | 0 <= i < |vs| && ShowsVerdict(vs[i], name)|
  {
    var showPhase, showVerdict := ShownPhase, ShownVerdict;
    TallyCounts(vs, showPhase, name);
    TallyCounts(vs, showVerdict, name);
    forall i | 0 <= i < |vs|
      ensures showPhase(vs[i]) == name <==> ShowsPhase(vs[i], name)
      ensures name != "" ==> (showVerdict(vs[i]) == name <==> ShowsVerdict(vs[i], name))
    {
      ShownMeans(vs[i], name);
    }
    hide Tally, ShowsPhase, ShowsVerdict;
    assert (set i | 0 <= i < |vs| && showPhase(vs[i]) == name) == set i | 0 <= i < |vs| && ShowsPhase(vs[i], name);
    if name != "" {
      assert (set i | 0 <= i < |vs| && showVerdict(vs[i]) == name) ==
        set i | 0 <= i < |vs| && ShowsVerdict(vs[i], name);
    }
  }

  const PHASE_LABELS: seq<string> :=
    ["Pending", "Provisioning", "Scanning", "Aggregating", "Attesting", "Gating", "Passed", "Failed", "Quarantined",
      "Unknown"]

  lemma LabelsDiffer()
    ensures Distinct(PHASE_LABELS)
  {
    // no two labels agree in length and first letter
    assert forall i, j | 0 <= i < j < |PHASE_LABELS| ::
        |PHASE_LABELS[i]| != |PHASE_LABELS[j]| || PHASE_LABELS[i][0] != PHASE_LABELS[j][0];
  }

  function Total(counts: map<string, nat>, names: seq<string>): nat {
    if names == [] then 0 else At(counts, names[0]) + Total(counts, names[1..])
  }

  function TallyTotal(vs: seq<Validation>, names: seq<string>): nat {
    if names == [] then 0 else Tally(vs, ShownPhase, names[0]) + TallyTotal(vs, names[1..])
  }

  lemma {:induction false} TotalIsTallied(vs: seq<Validation>, counts: map<string, nat>, names: seq<string>)
    requires forall name :: At(counts, name) == Tally(vs, ShownPhase, name)
    ensures Total(counts, names) == TallyTotal(vs, names)
  {
    if names != [] { TotalIsTallied(vs, counts, names[1..]); }
  }

  // A validation is counted under its own name and under no other
  lemma {:induction false} CountedOnce(vs: seq<Validation>, v: Validation, names: seq<string>)
    requires Distinct(names)
    ensures TallyTotal(vs + [v], names) == TallyTotal(vs, names) + if ShownPhase(v) in names then 1 else 0
  {
    if names != [] {
      hide ShownPhase;
      CountedOnce(vs, v, names[1..]);
      assert (vs + [v])[..|vs|] == vs;
      assert names[0] !in names[1..];
    }
  }

  lemma PhaseIsLabelled(v: Validation)
    ensures ShownPhase(v) in PHASE_LABELS
  {
    var shown := ShownPhase(v);
    assert shown == PHASE_LABELS[0] || shown == PHASE_LABELS[1] || shown == PHASE_LABELS[2] || shown == PHASE_LABELS[3]
        || shown == PHASE_LABELS[4] || shown == PHASE_LABELS[5] || shown == PHASE_LABELS[6] || shown == PHASE_LABELS[7]
        || shown == PHASE_LABELS[8] || shown == PHASE_LABELS[9];
  }

  lemma {:induction false} NothingToCount(names: seq<string>)
    ensures TallyTotal([], names) == 0
  {
    if names != [] { NothingToCount(names[1..]); }
  }

  lemma {:induction false} TalliesAddUp(vs: seq<Validation>)
    ensures TallyTotal(vs, PHASE_LABELS) == |vs|
  {
    hide ShownPhase, PHASE_LABELS, TallyTotal;
    if vs == [] {
      NothingToCount(PHASE_LABELS);
    } else {
      var n := |vs| - 1;
      TalliesAddUp(vs[..n]);
      LabelsDiffer();
      PhaseIsLabelled(vs[n]);
      CountedOnce(vs[..n], vs[n], PHASE_LABELS);
      assert vs[..n] + [vs[n]] == vs;
    }
  }

  // The phase counts of a summary add up to the number of validations
  lemma PhaseCountsAddUp(vs: seq<Validation>, counts: map<string, nat>)
    requires forall name :: At(counts, name) == Tally(vs, ShownPhase, name)
    ensures Total(counts, PHASE_LABELS) == |vs|
  {
    TotalIsTallied(vs, counts, PHASE_LABELS);
    TalliesAddUp(vs);
  }

  // ---- Decisions the gate made ----

  // What makes the two views agree, of one decision: it blocks exactly when it is critical
  predicate Coherent(v: Validation) {
    Blocks(v) <==> Judged(v, Critical)
  }

  // Every decision the gate makes is coherent
  lemma GateIsCoherent(cfg: Config, v: Validation)
    requires Gated(cfg, v)
    ensures Coherent(v)
  {
    hide GateOf;
    var gate := v.Status().gateDecision;
    if gate.Some? {
      var u, children, now :| gate.value == GateOf(cfg, u, children, now);
      GateVerdict(cfg, u, children, now);
    }
  }

  // The projection holds versions of stored validations, whichever watch event came last
  ghost predicate Projected(c: Cluster, v: Validation) {
    exists n :: n in c.validations && MayObserve(v, c.validations[n])
  }

  // Over every run: whatever versions the projection holds, in whatever order, both views report the same
  // state, and it is the highest severity among the decisions it shows
  lemma ViewsAgreeOnEveryRun(cfg: Config, steps: seq<Step>, vs: seq<Validation>)
    requires forall v | v in vs :: Projected(Run(cfg, EMPTY_SYSTEM, steps).c, v)
    ensures RestState(vs) == GraphState(vs)
    ensures forall v, severity | v in vs && Judged(v, severity) :: severity.Rank() <= RestState(vs).Rank()
    ensures RestState(vs) != Cosmetic ==> exists v :: v in vs && Judged(v, RestState(vs))
  {
    GatesHold(cfg, steps);
    hide Run, Blocks, MadeByGate;
    var c := Run(cfg, EMPTY_SYSTEM, steps).c;
    forall v | v in vs ensures Coherent(v) {
      var n :| n in c.validations && MayObserve(v, c.validations[n]);
      assert Gated(cfg, c.validations[n]);
      GateIsCoherent(cfg, v);
    }
    ViewsAgree(vs);
  }

  // What a run leaves a validation with: a phase that is its verdict's
  predicate Consistent(v: Validation) {
    var gate := v.Status().gateDecision;
    && (gate.Some? <==> v.Status().phase in {Some(Passed), Some(Phase.Failed)})
    && (gate.Some? && gate.value.verdict == VerdictPassed <==> v.Status().phase == Some(Passed))
    && (gate.Some? && gate.value.verdict == VerdictFailed <==> v.Status().phase == Some(Phase.Failed))
  }

  lemma StoredIsConsistent(cfg: Config, steps: seq<Step>, n: string)
    requires n in Run(cfg, EMPTY_SYSTEM, steps).c.validations
    ensures Consistent(Run(cfg, EMPTY_SYSTEM, steps).c.validations[n])
  {
    hide Run;
    StatusMatchesPhase(cfg, steps, n);
    ByPhase(Run(cfg, EMPTY_SYSTEM, steps).c.validations[n]);
  }

  lemma ByPhase(v: Validation)
    requires var gate := v.Status().gateDecision;
             && (gate.Some? <==> v.Phase().Terminal()) && !v.Phase().Quarantined?
             && (v.Phase() == Passed <==> gate.Some? && gate.value.verdict == VerdictPassed)
             && (v.Phase() == Phase.Failed <==> gate.Some? && gate.value.verdict == VerdictFailed)
    ensures Consistent(v)
  {
  }

  // Over every run, deletes included, for stored validations in any order: as many are blocking as are counted
  // under the phase Failed and under the verdict Failed, and as many passed by phase as by verdict
  lemma CountsAgreeOnEveryRun(cfg: Config, steps: seq<Step>, vs: seq<Validation>)
    requires forall v | v in vs ::
               exists n :: n in Run(cfg, EMPTY_SYSTEM, steps).c.validations &&
                           v == Run(cfg, EMPTY_SYSTEM, steps).c.validations[n]
    ensures Tally(vs, ShownPhase, "Failed") == Tally(vs, ShownVerdict, "Failed") == |Blocking(vs)|
    ensures Tally(vs, ShownPhase, "Passed") == Tally(vs, ShownVerdict, "Passed")
    ensures Tally(vs, ShownVerdict, "Quarantined") == 0
  {
    forall v | v in vs ensures Consistent(v) {
      var n :| n in Run(cfg, EMPTY_SYSTEM, steps).c.validations &&
               v == Run(cfg, EMPTY_SYSTEM, steps).c.validations[n];
      StoredIsConsistent(cfg, steps, n);
    }
    hide Run;
    ConsistentCounts(vs);
  }

  lemma {:induction false} ConsistentCounts(vs: seq<Validation>)
    requires forall v | v in vs :: Consistent(v)
    ensures Tally(vs, ShownPhase, "Failed") == Tally(vs, ShownVerdict, "Failed") == |Blocking(vs)|
    ensures Tally(vs, ShownPhase, "Passed") == Tally(vs, ShownVerdict, "Passed")
    ensures Tally(vs, ShownVerdict, "Quarantined") == 0
  {
    if vs != [] {
      var n := |vs| - 1;
      assert vs[n] in vs && forall v | v in vs[..n] :: v in vs;
      ConsistentCounts(vs[..n]);
      ConsistentShows(vs[n]);
    }
  }

  lemma ConsistentShows(v: Validation)
    requires Consistent(v)
    ensures ShownPhase(v) == "Failed" <==> ShownVerdict(v) == "Failed"
    ensures ShownPhase(v) == "Failed" <==> Blocks(v)
    ensures ShownPhase(v) == "Passed" <==> ShownVerdict(v) == "Passed"
    ensures ShownVerdict(v) != "Quarantined"
  {
  }
}
