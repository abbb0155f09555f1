/** Where decisions come from: over every run a stored decision is one the gate made. */
module Gates {
  import opened Wrappers
  import opened Crds
  import opened Pipeline
  import opened PipelineHistory
  import opened PipelineBackward

  ghost predicate MadeByGate(cfg: Config, g: GateDecision) {
    exists v, children, now :: g == GateOf(cfg, v, children, now)
  }

  ghost predicate Gated(cfg: Config, v: Validation) {
    var gate := v.Status().gateDecision;
    gate.Some? ==> MadeByGate(cfg, gate.value)
  }

  ghost predicate AllGated(cfg: Config, s: System) {
    forall n | n in s.c.validations :: Gated(cfg, s.c.validations[n])
  }

  lemma PlanIsGated(cfg: Config, c: Cluster, n: string, listing: seq<string>, now: Time)
    requires n in c.validations && Lists(c, n, listing) && Gated(cfg, c.validations[n])
    ensures var next := PlanOf(cfg, c, n, listing, now).next;
            next.Some? ==> Gated(cfg, c.validations[n].(status := next))
  {
    hide GateOf, RequiredScanners;
    if c.validations[n].Phase().Gating? {
      assert MadeByGate(cfg, GateOf(cfg, c.validations[n], Children(c, listing), now));
    }
  }

  lemma ContinueKeepsGates(cfg: Config, s: System, k: string)
    requires HistoryOk(s) && Planned(cfg, s) && AllGated(cfg, s) && k in s.flights
    ensures AllGated(cfg, ContinueFlight(s, k))
  {
    hide EventsOk, DispatchOk, EventsKnown, Shape, Edge, ContinueFlight, ValidationsOk, PlanOf, Grows, Gated;
    var f := s.flights[k];
    assert FlightOk(s.c, k, f);
    ContinuedValidations(s, k);
    if f.done == |f.plan.creates| && f.plan.next.Some? {
      assert Gated(cfg, f.v);
      PlanIsGated(cfg, f.read, k, f.listing, f.now);
    }
  }

  lemma StepKeepsGates(cfg: Config, s: System, step: Step)
    requires HistoryOk(s) && Planned(cfg, s) && AllGated(cfg, s)
    ensures AllGated(cfg, Next(cfg, s, step))
  {
    hide HistoryOk, Planned, ContinueFlight, PlanOf, TenantAfter, ScanJobNext, HandleDelivery, MayObserve,
      BuildReceipt, MadeByGate;
    if step.Continue? && step.n in s.flights {
      ContinueKeepsGates(cfg, s, step.n);
    }
  }

  // Over every run, deletes included: nobody but the gate makes a decision
  lemma {:induction false} GatesHold(cfg: Config, steps: seq<Step>)
    ensures AllGated(cfg, Run(cfg, EMPTY_SYSTEM, steps))
  {
    if steps != [] {
      HistoryHolds(cfg, steps[..|steps| - 1]);
      PlannedHolds(cfg, steps[..|steps| - 1]);
      GatesHold(cfg, steps[..|steps| - 1]);
      hide HistoryOk, Planned, Next, AllGated;
      StepKeepsGates(cfg, Run(cfg, EMPTY_SYSTEM, steps[..|steps| - 1]), steps[|steps| - 1]);
    }
  }

  // An executed action is the action of a decision the gate made
  lemma DispatchesAreGated(cfg: Config, steps: seq<Step>, i: nat) returns (g: GateDecision)
    requires i < |Run(cfg, EMPTY_SYSTEM, steps).dispatches|
    ensures MadeByGate(cfg, g) && g.action == Some(Run(cfg, EMPTY_SYSTEM, steps).dispatches[i].action)
  {
    HistoryHolds(cfg, steps);
    GatesHold(cfg, steps);
    hide Run, FlightOk, EventsOk, EventsKnown, ValidationsOk, MadeByGate;
    var s := Run(cfg, EMPTY_SYSTEM, steps);
    var n :| DecidedBy(s.c, s.dispatches[i], n);
    g := s.c.validations[n].Status().gateDecision.value;
    assert Gated(cfg, s.c.validations[n]);
  }
}
