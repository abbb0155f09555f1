/** The one way back: what a run with external deletes must have lost before a phase is repeated. */
module PipelineBackward {
  import opened Encodings
  import opened Pipeline
  import opened PipelineHistory

  // Every reconcile in progress acts on the plan made from what it read
  ghost predicate Planned(cfg: Config, s: System) {
    forall n | n in s.flights ::
      var f := s.flights[n];
      && n in f.read.validations && f.read.validations[n] == f.v && Lists(f.read, n, f.listing)
      && f.plan == PlanOf(cfg, f.read, n, f.listing, f.now)
  }

  lemma StepKeepsPlanned(cfg: Config, s: System, step: Step)
    requires Planned(cfg, s)
    ensures Planned(cfg, Next(cfg, s, step))
  {
    hide PlanOf, TenantAfter, ScanJobNext, HandleDelivery, BuildReceipt, Lists, ApplyEffect, Emitted;
  }

  lemma {:induction false} PlannedHolds(cfg: Config, steps: seq<Step>)
    ensures Planned(cfg, Run(cfg, EMPTY_SYSTEM, steps))
  {
    hide Planned, Next;
    if steps != [] {
      PlannedHolds(cfg, steps[..|steps| - 1]);
      StepKeepsPlanned(cfg, Run(cfg, EMPTY_SYSTEM, steps[..|steps| - 1]), steps[|steps| - 1]);
    } else {
      NothingPlanned(cfg);
    }
  }

  lemma NothingPlanned(cfg: Config)
    ensures Planned(cfg, EMPTY_SYSTEM)
  {
  }

  // The reconcile of n found neither the tenant nor any scan job of n when it read them
  ghost predicate ReadNothing(s: System, n: string) {
    n in s.flights &&
    TenantName(n) !in s.flights[n].read.tenants &&
    forall k | k in s.flights[n].read.scanJobs :: s.flights[n].read.scanJobs[k].parent != n
  }

  lemma PatchBackMeansLoss(cfg: Config, s: System, k: string, n: string)
    requires HistoryOk(s) && Planned(cfg, s) && k in s.flights && n in s.c.validations
    requires n in ContinueFlight(s, k).c.validations
    requires ContinueFlight(s, k).c.validations[n].Phase().Rank() < s.c.validations[n].Phase().Rank()
    ensures k == n && ReadNothing(s, n)
    ensures s.c.validations[n].Phase().Scanning? && ContinueFlight(s, k).c.validations[n].Phase().Provisioning?
  {
    hide EventsOk, DispatchOk, EventsKnown, Shape, Grows, Edge, ContinueFlight, ValidationsOk, PlanOf;
    assert FlightOk(s.c, k, s.flights[k]);
    ContinuedValidations(s, k);
    var f := s.flights[k];
    BackwardEdge(cfg, f.read, k, f.listing, f.now);
  }

  lemma BackwardStep(cfg: Config, s: System, step: Step, n: string)
    requires HistoryOk(s) && Planned(cfg, s) && n in s.c.validations && n in Next(cfg, s, step).c.validations
    requires Next(cfg, s, step).c.validations[n].Phase().Rank() < s.c.validations[n].Phase().Rank()
    ensures step == Continue(n) && ReadNothing(s, n)
    ensures s.c.validations[n].Phase().Scanning? && Next(cfg, s, step).c.validations[n].Phase().Provisioning?
  {
    OnlyTwoStepsWriteAStatus(cfg, s, step, n);
    if step.AppendReceipt? && step.n == n { ReceiptFollowsTheChain(cfg, s, n, step.observed, step.now); }
    hide HistoryOk, Planned, Next, ContinueFlight, ReadNothing;
    if step.Continue? && step.n in s.flights {
      PatchBackMeansLoss(cfg, s, step.n, n);
    }
  }

  // Over every run, deletes included: a phase is only ever taken back from Scanning to Provisioning, by a
  // reconcile that found its tenant and all its scan jobs gone
  lemma OnlyLossGoesBack(cfg: Config, steps: seq<Step>, step: Step, n: string)
    requires var s := Run(cfg, EMPTY_SYSTEM, steps);
             && n in s.c.validations && n in Next(cfg, s, step).c.validations
             && Next(cfg, s, step).c.validations[n].Phase().Rank() < s.c.validations[n].Phase().Rank()
    ensures var s := Run(cfg, EMPTY_SYSTEM, steps);
            && step == Continue(n) && ReadNothing(s, n)
            && s.c.validations[n].Phase().Scanning? && Next(cfg, s, step).c.validations[n].Phase().Provisioning?
  {
    HistoryHolds(cfg, steps);
    PlannedHolds(cfg, steps);
    var s := Run(cfg, EMPTY_SYSTEM, steps);
    hide HistoryOk, Planned, Run, Next, ReadNothing;
    BackwardStep(cfg, s, step, n);
  }
}
