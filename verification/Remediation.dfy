/** From the gate to the executor: what becomes of the actions the gate emits. */
module Remediation {
  import opened Wrappers
  import opened MergePatch
  import opened Crds
  import opened Evidence
  import opened Actions
  import opened Security
  import opened SecurityLaws
  import opened Executor
  import opened Pipeline
  import opened Gates

  lemma NoneAttested()
    ensures Difference(ALL_ATTESTATIONS, DEFAULT_SPEC.requiredAttestations, {}) == ALL_ATTESTATIONS
  {
    var required := DEFAULT_SPEC.requiredAttestations;
    assert ALL_ATTESTATIONS[3..] == [SlsaAttested] && Difference([], required, {}) == [];
    assert Difference(ALL_ATTESTATIONS[3..], required, {}) == [SlsaAttested];
    assert ALL_ATTESTATIONS[2..][1..] == ALL_ATTESTATIONS[3..];
    assert Difference(ALL_ATTESTATIONS[2..], required, {}) == [SbomSpdx, SlsaAttested];
    assert ALL_ATTESTATIONS[1..][1..] == ALL_ATTESTATIONS[2..];
    assert Difference(ALL_ATTESTATIONS[1..], required, {}) == [CosignSig, SbomSpdx, SlsaAttested];
  }

  // With remediation on, a gate finds all four attestations missing
  lemma GateMissesEverything(cfg: Config, v: Validation, children: seq<ScanJob>, now: Time)
    requires !cfg.scanOnly
    ensures DiffOf(SpecFor(cfg), now, Snapshot(v, children, now).imageDigests).missingAttestations ==
            [(v.imageDigest, ALL_ATTESTATIONS)]
  {
    hide AllFindings, Reported, DEFAULT_SPEC, Achievable, Breaching;
    DiffOfOne(SpecFor(cfg), now, Snapshot(v, children, now).imageDigests[0]);
    NoneAttested();
  }

  lemma AttestationsInOrder(digest: string)
    ensures var actions := AttestationActions([(digest, ALL_ATTESTATIONS)]);
            |actions| == 4 && actions[0] == Attest(digest, CartorioActive) && actions[1] == Attest(digest, CosignSig)
  {
    hide Attest;
    AttestAllSize(digest, ALL_ATTESTATIONS);
    var missing := [(digest, ALL_ATTESTATIONS)];
    assert missing[..0] == [] && AttestationActions([]) == [];
    assert AttestationActions(missing) == AttestAll(digest, ALL_ATTESTATIONS);
  }

  lemma FunctionalGateActs(cfg: Config, v: Validation, children: seq<ScanJob>, now: Time)
    requires !cfg.scanOnly && GateOf(cfg, v, children, now).severity == Functional
    ensures var drift := DiffOf(SpecFor(cfg), now, Snapshot(v, children, now).imageDigests);
            var steps := AttestationActions(drift.missingAttestations) + BumpActions(drift.agedHighCves);
            steps != [] ==> GateOf(cfg, v, children, now).action == Some(Compose(steps))
  {
    hide DiffOf, AttestationActions, BumpActions, SpecFor, Snapshot, Classify;
    assert Snapshot(v, children, now).observedAt == now by { SnapshotTime(v, children, now); }
  }

  lemma SnapshotTime(v: Validation, children: seq<ScanJob>, now: Time)
    ensures Snapshot(v, children, now).observedAt == now
  {
  }

  // The first step asks cartorio for something its spec cannot say
  predicate OpensWithUnreadableSpec(a: TypedAction) {
    a.Compose? && a.steps != [] && a.steps[0].ReconcilerApply?
    && a.steps[0].reconciler == CartorioAdmit && !SpecFits(CartorioAdmit, a.steps[0].spec)
  }

  // An attestation names no transition, and the transition a revocation names is a text and no variant
  lemma EmittedSpecsDoNotFit(digest: string, c: DigestCveAge)
    ensures !SpecFits(CartorioAdmit, Attest(digest, CartorioActive).spec)
    ensures !SpecFits(CartorioAdmit, RevokeDigest(c).spec)
  {
    var fields := SpecFields(CartorioAdmit).value;
    assert ("transition", TransitionField) in fields;
    assert "transition" !in Attest(digest, CartorioActive).spec.members;
    assert RevokeDigest(c).spec.members["transition"] == Str("Revoked");
  }

  lemma CriticalGateActs(cfg: Config, v: Validation, children: seq<ScanJob>, now: Time)
    requires !cfg.scanOnly && GateOf(cfg, v, children, now).severity == Critical
    ensures var cves := DiffOf(SpecFor(cfg), now, Snapshot(v, children, now).imageDigests).criticalCves;
            cves != [] && GateOf(cfg, v, children, now).action == Some(Compose(CriticalActions(cves)))
  {
    hide CriticalActions, SpecFor, AllFindings, Reported, Breaching, Difference, Clean;
    DiffOfOne(SpecFor(cfg), now, Snapshot(v, children, now).imageDigests[0]);
    SnapshotTime(v, children, now);
  }

  lemma GateIsNotCosmetic(cfg: Config, v: Validation, children: seq<ScanJob>, now: Time)
    requires !cfg.scanOnly
    ensures GateOf(cfg, v, children, now).severity != Cosmetic
  {
    hide DiffOf, SpecFor, Snapshot, DecideOf;
    GateMissesEverything(cfg, v, children, now);
    SnapshotTime(v, children, now);
  }

  // Whatever the gate emits opens with such a step
  lemma GateActionsOpenUnreadably(cfg: Config, v: Validation, children: seq<ScanJob>, now: Time)
    ensures var action := GateOf(cfg, v, children, now).action;
            action.Some? ==> !cfg.scanOnly && OpensWithUnreadableSpec(action.value)
  {
    hide DiffOf, AttestationActions, BumpActions, SpecFor, Snapshot, Classify, GateOf, SpecFits, Attest,
      RevokeDigest, CriticalActions;
    ScanOnlyGateIsIdle(cfg, v, children, now);
    if !cfg.scanOnly {
      GateIsNotCosmetic(cfg, v, children, now);
      var drift := DiffOf(SpecFor(cfg), now, Snapshot(v, children, now).imageDigests);
      if GateOf(cfg, v, children, now).severity == Functional {
        GateMissesEverything(cfg, v, children, now);
        AttestationsInOrder(v.imageDigest);
        FunctionalGateActs(cfg, v, children, now);
        AttestOpensUnreadably(v.imageDigest, AttestationActions(drift.missingAttestations) +
          BumpActions(drift.agedHighCves));
      } else {
        CriticalGateActs(cfg, v, children, now);
        CriticalActionsByCve(drift.criticalCves, 0);
        RevokeOpensUnreadably(drift.criticalCves[0], CriticalActions(drift.criticalCves));
      }
    }
  }

  // With remediation on, every decision carries an action
  lemma GateActs(cfg: Config, v: Validation, children: seq<ScanJob>, now: Time)
    requires !cfg.scanOnly
    ensures GateOf(cfg, v, children, now).action.Some?
  {
    hide DiffOf, AttestationActions, BumpActions, SpecFor, Snapshot, Classify, GateOf, CriticalActions;
    GateIsNotCosmetic(cfg, v, children, now);
    if GateOf(cfg, v, children, now).severity == Functional {
      GateMissesEverything(cfg, v, children, now);
      AttestationsInOrder(v.imageDigest);
      FunctionalGateActs(cfg, v, children, now);
    } else {
      CriticalGateActs(cfg, v, children, now);
    }
  }

  lemma ScanOnlyGateIsIdle(cfg: Config, v: Validation, children: seq<ScanJob>, now: Time)
    ensures cfg.scanOnly ==> GateOf(cfg, v, children, now).action.None?
  {
  }

  lemma AttestOpensUnreadably(digest: string, steps: seq<TypedAction>)
    requires steps != [] && steps[0] == Attest(digest, CartorioActive)
    ensures OpensWithUnreadableSpec(Compose(steps))
  {
    hide SpecFits;
    EmittedSpecsDoNotFit(digest, DigestCveAge("", "", "", Trivy, 0));
  }

  lemma RevokeOpensUnreadably(c: DigestCveAge, steps: seq<TypedAction>)
    requires steps != [] && steps[0] == RevokeDigest(c)
    ensures OpensWithUnreadableSpec(Compose(steps))
  {
    hide SpecFits;
    EmittedSpecsDoNotFit("", c);
  }

  // Refused at its first step: one receipt, and nothing outside was asked
  ghost predicate Refused(w: Wiring, calls: seq<TypedAction>, a: TypedAction) {
    Execute(w, calls, a) ==
    (Applied(ComposeReceipt([Outcome.Failed(if CartorioAdmit in w.registered then InvalidSpec else Internal)])), calls)
  }

  lemma UnreadableIsRefused(w: Wiring, calls: seq<TypedAction>, a: TypedAction)
    requires OpensWithUnreadableSpec(a)
    ensures Refused(w, calls, a)
  {
    hide SpecFits;
    var refusal := Outcome.Failed(if CartorioAdmit in w.registered then InvalidSpec else Internal);
    assert Execute(w, calls, a.steps[0]) == (refusal, calls);
    assert RunSteps(w, calls, a.steps) == ([refusal], calls);
  }

  // Every action a gate emits, functional or critical, whatever drifted and whatever is wired: with cartorio's
  // handler registered it stops at its first step on an invalid spec, without a single foreign call
  lemma EveryGateActionIsRefused(cfg: Config, v: Validation, children: seq<ScanJob>, now: Time, w: Wiring,
      calls: seq<TypedAction>)
    ensures var action := GateOf(cfg, v, children, now).action;
            action.Some? ==> Refused(w, calls, action.value)
  {
    hide GateOf, OpensWithUnreadableSpec, Refused;
    GateActionsOpenUnreadably(cfg, v, children, now);
    if GateOf(cfg, v, children, now).action.Some? {
      UnreadableIsRefused(w, calls, GateOf(cfg, v, children, now).action.value);
    }
  }

  // Over every run, deletes included: no dispatched action ever reaches a foreign executor
  lemma NoDispatchReachesOut(cfg: Config, steps: seq<Step>, i: nat, w: Wiring, calls: seq<TypedAction>)
    requires i < |Run(cfg, EMPTY_SYSTEM, steps).dispatches|
    ensures Refused(w, calls, Run(cfg, EMPTY_SYSTEM, steps).dispatches[i].action)
  {
    hide Run, GateOf, Refused;
    var g := DispatchesAreGated(cfg, steps, i);
    var v, children, now :| g == GateOf(cfg, v, children, now);
    EveryGateActionIsRefused(cfg, v, children, now, w, calls);
  }
}
