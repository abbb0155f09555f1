/** Lost events: exactly when the event stream still tells the state of a validation. */
module EventLoss {
  import opened Wrappers
  import opened Crds
  import opened Pipeline
  import opened PipelineHistory
  import opened ChildFindings
  import opened PipelineSafety

  // The stream has broken off, or leads to an earlier phase
  predicate Behind(events: seq<Event>, p: Phase) {
    var r := Replay(events);
    r.None? || r.value.Rank() < p.Rank()
  }

  predicate HasDue(s: System, n: string) {
    n in s.flights && Due(s.flights[n]) != []
  }

  // A phase change of n is written and not yet announced
  predicate ChangeDue(s: System, n: string) {
    HasDue(s, n) && Due(s.flights[n])[0].PhaseChanged?
  }

  // Where the stream would have to lead: to the phase before a change that is still to be announced
  function Anchor(s: System, n: string): Phase
    requires n in s.c.validations
  {
    if ChangeDue(s, n) then s.flights[n].v.Phase() else s.c.validations[n].Phase()
  }

  // What is missing stays missing
  ghost predicate LossShows(s: System, n: string)
    requires n in s.c.validations
  {
    n in s.lost ==>
      var v := s.c.validations[n];
      var events := EventsFor(s.c.events, v.uid);
      Behind(events, Anchor(s, n)) || (v.Phase().Terminal() && Decisions(events) == [] && !HasDue(s, n))
  }

  // A reconcile under way began no later in the chain than its validation is now
  ghost predicate FlightsTrail(s: System) {
    forall n | n in s.flights && n in s.c.validations ::
      s.flights[n].v.Phase().Rank() <= s.c.validations[n].Phase().Rank()
  }

  ghost predicate LossOk(s: System) {
    FlightsTrail(s) && forall n | n in s.c.validations :: LossShows(s, n)
  }

  lemma RankTells(p: Phase, q: Phase)
    requires p != q && !p.Terminal() && p.Rank() <= q.Rank()
    ensures p.Rank() < q.Rank()
  {
  }

  // ---- Steps ----

  lemma LossFrame(s: System, t: System, n: string)
    requires n in s.c.validations && n in t.c.validations && LossShows(s, n)
    requires t.c.events == s.c.events && (n in t.lost ==> n in s.lost)
    requires t.c.validations[n].uid == s.c.validations[n].uid &&
             t.c.validations[n].Phase() == s.c.validations[n].Phase()
    requires HasDue(t, n) <==> HasDue(s, n)
    requires HasDue(s, n) ==> t.flights[n].v == s.flights[n].v && Due(t.flights[n]) == Due(s.flights[n])
    ensures LossShows(t, n)
  {
    hide Due, EventsFor, Replay, Decisions;
  }

  lemma ReplayOne(events: seq<Event>, e: Event)
    ensures Replay(events + [e]) ==
            match e
            case PhaseChanged(_, from, to) => if Replay(events) == Some(from) then Some(to) else None
            case DecisionEmitted(_, _, _) => Replay(events)
    ensures e.PhaseChanged? ==> Decisions(events + [e]) == Decisions(events)
    ensures e.DecisionEmitted? ==> Decisions(events + [e]) == Decisions(events) + [(e.severity, e.verdict)]
  {
    assert (events + [e])[..|events|] == events;
  }

  // The events of one status write: the phase change starts where the reconcile began, the decision is last
  lemma DueShape(f: Flight)
    requires Due(f) != []
    ensures |Due(f)| <= 2
    ensures Due(f)[0].PhaseChanged? ==> Due(f)[0].from == f.v.Phase() && Due(f)[0].to != Due(f)[0].from
    ensures Due(f)[0].DecisionEmitted? ==> |Due(f)| == 1
    ensures |Due(f)| == 2 ==> Due(f)[1].DecisionEmitted?
    ensures f.plan.next.Some?
  {
  }

  // What is known of a validation whose reconcile has events to publish
  lemma StoryBefore(s: System, n: string)
    requires HistoryOk(s) && n in s.c.validations && n in s.flights && Due(s.flights[n]) != []
    ensures var f, v := s.flights[n], s.c.validations[n];
            && !f.v.Phase().Terminal() && (v.Status().gateDecision.Some? ==> v.Phase().Terminal())
            && (n !in s.lost ==> Tells(EventsFor(s.c.events, v.uid) + Due(f), v))
  {
    hide EventsFor, Tells, EventsKnown, DispatchOk, Grows, Edge;
    assert FlightOk(s.c, n, s.flights[n]) && Shape(n, s.c.validations[n]) && EventsOk(s, n);
    DueShape(s.flights[n]);
  }

  // Dying with events still to publish: the first of them is missed from now on
  lemma CrashShows(s: System, t: System, n: string)
    requires HistoryOk(s) && FlightsTrail(s) && n in s.c.validations && n in s.flights && LossShows(s, n)
    requires Due(s.flights[n]) != []
    requires t == s.(flights := s.flights - {n}, lost := s.lost + {n})
    ensures LossShows(t, n)
  {
    hide HistoryOk, EventsFor, Tells, Replay, Decisions, Due;
    var f, v := s.flights[n], s.c.validations[n];
    StoryBefore(s, n);
    assert f.v.Phase().Rank() <= v.Phase().Rank();
    if n !in s.lost {
      CutStory(EventsFor(s.c.events, v.uid), f, v);
    }
  }

  lemma AfterDrop(f: Flight)
    requires f.Patched() && !f.Over()
    ensures var rest := Due(f.(done := f.done + 1));
            Due(f) != [] && |Due(f)| == 1 + |rest| && (rest != [] ==> |Due(f)| == 2 && rest[0].DecisionEmitted?)
  {
    NextDue(f);
    DueShape(f);
  }

  // An event that is dropped is missed from now on, even if the next one arrives
  lemma DropShows(s: System, t: System, n: string)
    requires HistoryOk(s) && FlightsTrail(s) && n in s.c.validations && n in s.flights && LossShows(s, n)
    requires s.flights[n].Patched() && !s.flights[n].Over() && t == DropFlight(s, n)
    ensures LossShows(t, n)
  {
    hide HistoryOk, EventsFor, Tells, Replay, Decisions, Due, EffectCount;
    var f, v := s.flights[n], s.c.validations[n];
    AfterDrop(f);
    StoryBefore(s, n);
    assert f.v.Phase().Rank() <= v.Phase().Rank();
    assert !ChangeDue(t, n);
    if n !in s.lost {
      CutStory(EventsFor(s.c.events, v.uid), f, v);
      LoneDecisionCut(EventsFor(s.c.events, v.uid), f, v);
    }
  }

  // Where the dropped event was a phase change, the stream is behind whatever follows
  lemma LoneDecisionCut(events: seq<Event>, f: Flight, v: Validation)
    requires Due(f) != [] && Tells(events + Due(f), v) && f.v.Phase().Rank() <= v.Phase().Rank() &&
             !f.v.Phase().Terminal()
    ensures |Due(f)| == 2 ==> Behind(events, v.Phase())
  {
    hide Replay, Decisions;
    DueShape(f);
    var due := Due(f);
    ReplayOne(events, due[0]);
    if |due| == 2 {
      assert events + due == (events + [due[0]]) + [due[1]];
      ReplayOne(events + [due[0]], due[1]);
      RankTells(f.v.Phase(), v.Phase());
    }
  }

  lemma CutStory(events: seq<Event>, f: Flight, v: Validation)
    requires Due(f) != [] && Tells(events + Due(f), v) && f.v.Phase().Rank() <= v.Phase().Rank() &&
      !f.v.Phase().Terminal()
    requires v.Status().gateDecision.Some? ==> v.Phase().Terminal()
    ensures Behind(events, v.Phase()) || (v.Phase().Terminal() && Decisions(events) == [])
  {
    hide Replay, Decisions;
    DueShape(f);
    var due := Due(f);
    ReplayOne(events, due[0]);
    if |due| == 2 {
      assert events + due == (events + [due[0]]) + [due[1]];
      ReplayOne(events + [due[0]], due[1]);
    } else {
      assert due == [due[0]];
    }
    if due[0].PhaseChanged? {
      RankTells(f.v.Phase(), v.Phase());
    }
  }

  // Publishing does not repair a broken story
  lemma PublishShows(s: System, t: System, n: string, e: Event)
    requires HistoryOk(s) && FlightsTrail(s) && n in s.c.validations && n in s.flights && n in t.flights &&
      LossShows(s, n)
    requires t.c.validations == s.c.validations && t.c.events == s.c.events + [e] && t.lost == s.lost
    requires t.flights[n].v == s.flights[n].v && Due(s.flights[n]) == [e] + Due(t.flights[n]) &&
      RunOf(e) == s.c.validations[n].uid
    ensures LossShows(t, n)
  {
    var f, v := s.flights[n], s.c.validations[n];
    var events := EventsFor(s.c.events, v.uid);
    EventsForAppend(s.c.events, e, v.uid);
    DueShape(f);
    ReplayOne(events, e);
    hide HistoryOk, Due, EventsFor, Replay, Decisions;
  }

  lemma OtherPublishShows(s: System, t: System, k: string, n: string, e: Event)
    requires n in s.c.validations && n != k && LossShows(s, n)
    requires t.c.validations == s.c.validations && t.c.events == s.c.events + [e] && t.lost == s.lost
    requires (n in t.flights <==> n in s.flights) && (n in s.flights ==> t.flights[n] == s.flights[n])
    requires RunOf(e) != s.c.validations[n].uid
    ensures LossShows(t, n)
  {
    hide Due, Replay, Decisions;
    EventsForAppend(s.c.events, e, s.c.validations[n].uid);
    hide EventsFor;
    assert EventsFor(t.c.events, s.c.validations[n].uid) == EventsFor(s.c.events, s.c.validations[n].uid);
  }

  // A status write moves the validation on and away from where a broken story stopped
  lemma PatchShows(s: System, t: System, n: string)
    requires n in s.c.validations && n in s.flights && n in t.flights && n in t.c.validations && LossShows(s, n)
    requires s.c.validations[n] == s.flights[n].v && !s.c.validations[n].Phase().Terminal()
    requires t.c.validations[n].uid == s.c.validations[n].uid &&
      t.c.validations[n].Phase().Rank() >= s.c.validations[n].Phase().Rank()
    requires t.c.events == s.c.events && t.lost == s.lost && t.flights[n].v == s.flights[n].v && !HasDue(s, n)
    ensures LossShows(t, n)
  {
    hide Due, EventsFor, Replay, Decisions;
  }

  lemma PatchLoss(cfg: Config, s: System, k: string, n: string)
    requires SafeOk(cfg, s) && LossOk(s) && k in s.flights && n in s.c.validations
    requires s.flights[k].plan.next.Some? && s.flights[k].done == |s.flights[k].plan.creates|
    ensures n in ContinueFlight(s, k).c.validations && LossShows(ContinueFlight(s, k), n)
  {
    hide SafeOk, ContinueFlight, Due, Shape, FlightSafe, JobsOk, Edge, LossShows, EffectCount;
    PatchedSystem(cfg, s, k);
    PatchNeverGoesBack(cfg, s, k);
    var f, t := s.flights[k], ContinueFlight(s, k);
    NothingDue(f);
    PatchedFrom(cfg, s, k);
    assert LossShows(s, n);
    if n == k { PatchShows(s, t, n); } else { LossFrame(s, t, n); }
  }

  lemma PatchedFrom(cfg: Config, s: System, k: string)
    requires SafeOk(cfg, s) && k in s.flights
    requires s.flights[k].plan.next.Some? && s.flights[k].done == |s.flights[k].plan.creates|
    ensures k in s.c.validations && s.c.validations[k] == s.flights[k].v && !s.flights[k].v.Phase().Terminal()
  {
    hide ValidationOk, JobsOk, EventsOk, DispatchOk, EventsKnown, FlightSafe, PlanSound, ValidationsOk;
    assert FlightOk(s.c, k, s.flights[k]);
  }

  lemma PublishLoss(cfg: Config, s: System, k: string, n: string)
    requires SafeOk(cfg, s) && LossOk(s) && k in s.flights && n in s.c.validations
    requires s.flights[k].Patched() && !s.flights[k].Over()
    ensures n in ContinueFlight(s, k).c.validations && LossShows(ContinueFlight(s, k), n)
  {
    hide ValidationOk, JobsOk, EventsOk, DispatchOk, EventsKnown, FlightSafe, PlanSound, LossShows, Due, Emitted,
      EffectAt, EffectCount, Shape;
    var f, t := s.flights[k], ContinueFlight(s, k);
    assert FlightOk(s.c, k, f) && LossShows(s, n);
    NextDue(f);
    var e := EffectAt(f.plan, f.v, f.done).event;
    assert t.c.validations == s.c.validations && t.c.events == s.c.events + [e];
    if n == k { PublishShows(s, t, n, e); } else { OtherPublishShows(s, t, k, n, e); }
  }

  lemma QuietLoss(cfg: Config, s: System, k: string, n: string)
    requires SafeOk(cfg, s) && LossOk(s) && k in s.flights && n in s.c.validations
    requires s.flights[k].Over() || s.flights[k].done < |s.flights[k].plan.creates|
    ensures n in ContinueFlight(s, k).c.validations && LossShows(ContinueFlight(s, k), n)
  {
    hide ValidationOk, JobsOk, EventsOk, DispatchOk, EventsKnown, FlightSafe, LossShows, Due, Emitted, Shape, Grows,
      Edge, ValidationsOk;
    var f, t := s.flights[k], ContinueFlight(s, k);
    assert FlightOk(s.c, k, f) && LossShows(s, n);
    NothingDue(f);
    if !f.Over() {
      assert EffectAt(f.plan, f.v, f.done) == f.plan.creates[f.done];
      NothingDue(t.flights[k]);
    }
    LossFrame(s, t, n);
  }

  lemma ContinueLoss(cfg: Config, s: System, k: string, n: string)
    requires SafeOk(cfg, s) && LossOk(s) && k in s.flights && n in s.c.validations
    ensures n in ContinueFlight(s, k).c.validations && LossShows(ContinueFlight(s, k), n)
  {
    hide SafeOk, LossOk, ContinueFlight, LossShows;
    var f := s.flights[k];
    if f.Over() || f.done < |f.plan.creates| { QuietLoss(cfg, s, k, n); }
    else if f.Patched() { PublishLoss(cfg, s, k, n); }
    else { PatchLoss(cfg, s, k, n); }
  }

  lemma CrashLoss(cfg: Config, s: System, k: string, n: string)
    requires SafeOk(cfg, s) && LossOk(s) && k in s.flights && n in s.c.validations
    ensures LossShows(CrashFlight(s, k), n)
  {
    hide ValidationOk, JobsOk, HistoryOk, FlightSafe, LossShows, Emitted, EffectCount;
    var f, t := s.flights[k], CrashFlight(s, k);
    assert LossShows(s, n);
    if n == k && Due(f) != [] {
      assert f.Patched() && !f.Over() by { if f.Over() { NothingDue(f); } }
      CrashShows(s, t, n);
    } else {
      if n == k { DueEmptyMeansNothingLost(f); }
      LossFrame(s, t, n);
    }
  }

  lemma DropLoss(cfg: Config, s: System, k: string, n: string)
    requires SafeOk(cfg, s) && LossOk(s) && k in s.flights && n in s.c.validations
    ensures LossShows(DropFlight(s, k), n)
  {
    hide ValidationOk, JobsOk, HistoryOk, FlightSafe, LossShows, Emitted, EffectCount, Due;
    var f, t := s.flights[k], DropFlight(s, k);
    assert LossShows(s, n);
    if n == k && f.Patched() && !f.Over() {
      DropShows(s, t, n);
    } else {
      LossFrame(s, t, n);
    }
  }

  lemma DueEmptyMeansNothingLost(f: Flight)
    requires Due(f) == []
    ensures !f.Patched() || f.Over()
  {
  }

  lemma OtherLoss(cfg: Config, s: System, step: Step, n: string)
    requires SafeOk(cfg, s) && LossOk(s) && n in s.c.validations && n in Next(cfg, s, step).c.validations
    requires !step.Continue? && !step.Crash? && !step.DropEvent?
    requires Next(cfg, s, step).c.validations[n].uid == s.c.validations[n].uid
    requires Next(cfg, s, step).c.validations[n].Phase() == s.c.validations[n].Phase()
    ensures LossShows(Next(cfg, s, step), n)
  {
    hide SafeOk, LossShows, PlanOf, TenantAfter, ScanJobNext, BuildReceipt, HandleDelivery, MayObserve, Emitted;
    LossFrame(s, Next(cfg, s, step), n);
  }

  lemma NewLoss(cfg: Config, s: System, step: Step)
    requires SafeOk(cfg, s) && step.CreateValidation? && Next(cfg, s, step) != s
    ensures step.n in Next(cfg, s, step).c.validations && LossShows(Next(cfg, s, step), step.n)
  {
    SafeHasHistory(cfg, s);
    hide SafeOk, HistoryOk, Next, Due, EventsFor;
    NewcomerFits(cfg, s, step);
  }

  lemma StepTrails(cfg: Config, s: System, step: Step, n: string)
    requires SafeOk(cfg, s) && FlightsTrail(s) && !IsDelete(step)
    requires n in Next(cfg, s, step).flights && n in Next(cfg, s, step).c.validations
    ensures Next(cfg, s, step).flights[n].v.Phase().Rank() <= Next(cfg, s, step).c.validations[n].Phase().Rank()
  {
    FlightVersions(cfg, s, step, n);
    hide Next, HistoryOk, JobsOk, ValidationOk, FlightSafe;
    if n in s.c.validations { StepNeverGoesBack(cfg, s, step, n); }
  }

  lemma FlightVersions(cfg: Config, s: System, step: Step, n: string)
    requires SafeOk(cfg, s) && n in Next(cfg, s, step).flights
    ensures n in s.c.validations
    ensures var f := Next(cfg, s, step).flights[n];
            (n in s.flights && f.v == s.flights[n].v) || f.v == s.c.validations[n]
  {
    hide JobsOk, ValidationOk, FlightSafe, PlanOf, TenantAfter, ScanJobStepped, Receipted, HandleDelivery,
        MayObserve, Emitted,
      EffectAt, EffectCount, PlanSound, EventsOk, EventsKnown, DispatchOk, ValidationsOk, ApplyEffect, Lists;
    if n in s.flights { assert FlightOk(s.c, n, s.flights[n]); }
  }

  lemma StepShows(cfg: Config, s: System, step: Step, n: string)
    requires SafeOk(cfg, s) && LossOk(s) && !IsDelete(step) && n in Next(cfg, s, step).c.validations
    ensures LossShows(Next(cfg, s, step), n)
  {
    if n !in s.c.validations {
      SafeHasHistory(cfg, s);
      OnlyCreationAdds(cfg, s, step, n);
      NewLoss(cfg, s, step);
    } else if step.Continue? && step.n in s.flights {
      ContinueLoss(cfg, s, step.n, n);
      NextIs(cfg, s, step);
    } else if step.Crash? && step.n in s.flights {
      CrashLoss(cfg, s, step.n, n);
      NextIs(cfg, s, step);
    } else if step.DropEvent? && step.n in s.flights {
      DropLoss(cfg, s, step.n, n);
      NextIs(cfg, s, step);
    } else if step.Continue? || step.Crash? || step.DropEvent? {
      NextIs(cfg, s, step);
      assert LossShows(s, n) by { hide LossShows; }
    } else {
      PhaseStays(cfg, s, step, n);
      OtherLoss(cfg, s, step, n);
    }
    hide Next, SafeOk, LossOk, LossShows, ContinueFlight, CrashFlight, DropFlight;
  }

  lemma PhaseStays(cfg: Config, s: System, step: Step, n: string)
    requires SafeOk(cfg, s) && n in s.c.validations && !step.Continue?
    ensures n in Next(cfg, s, step).c.validations
    ensures Next(cfg, s, step).c.validations[n].uid == s.c.validations[n].uid
    ensures Next(cfg, s, step).c.validations[n].Phase() == s.c.validations[n].Phase()
  {
    SafeHasHistory(cfg, s);
    OnlyTwoStepsWriteAStatus(cfg, s, step, n);
    if step.AppendReceipt? && step.n == n { ReceiptFollowsTheChain(cfg, s, n, step.observed, step.now); }
    hide Next, SafeOk, HistoryOk, Edge, WriteOnce;
  }

  lemma StepKeepsLoss(cfg: Config, s: System, step: Step)
    requires SafeOk(cfg, s) && LossOk(s) && !IsDelete(step)
    ensures LossOk(Next(cfg, s, step))
  {
    var t := Next(cfg, s, step);
    hide Next, SafeOk, LossShows;
    forall n | n in t.c.validations ensures LossShows(t, n) {
      StepShows(cfg, s, step, n);
    }
    forall n | n in t.flights && n in t.c.validations
      ensures t.flights[n].v.Phase().Rank() <= t.c.validations[n].Phase().Rank()
    {
      StepTrails(cfg, s, step, n);
    }
  }

  lemma {:induction false} LossHolds(cfg: Config, steps: seq<Step>)
    requires DeleteFree(steps)
    ensures LossOk(Run(cfg, EMPTY_SYSTEM, steps))
  {
    if steps != [] {
      SafeHolds(cfg, steps[..|steps| - 1]);
      LossHolds(cfg, steps[..|steps| - 1]);
      hide SafeOk, LossOk, Next;
      StepKeepsLoss(cfg, Run(cfg, EMPTY_SYSTEM, steps[..|steps| - 1]), steps[|steps| - 1]);
    }
  }

  // Over every run without deletes, and with no reconcile of n under way: the stream tells the state of n exactly
  // when no event of n was ever dropped and no reconcile of n died between its status write and its last event
  lemma StreamTellsIffNothingLost(cfg: Config, steps: seq<Step>, n: string)
    requires var s := Run(cfg, EMPTY_SYSTEM, steps); DeleteFree(steps) && n in s.c.validations && n !in s.flights
    ensures var s := Run(cfg, EMPTY_SYSTEM, steps);
            Tells(EventsFor(s.c.events, s.c.validations[n].uid), s.c.validations[n]) <==> n !in s.lost
  {
    hide Run, HistoryOk, LossOk, Tells, EventsFor;
    HistoryHolds(cfg, steps);
    LossHolds(cfg, steps);
    TellsIffNotLost(Run(cfg, EMPTY_SYSTEM, steps), n);
  }

  lemma TellsIffNotLost(s: System, n: string)
    requires HistoryOk(s) && LossOk(s) && n in s.c.validations && n !in s.flights
    ensures Tells(EventsFor(s.c.events, s.c.validations[n].uid), s.c.validations[n]) <==> n !in s.lost
  {
    hide FlightOk, EventsKnown, DispatchOk, EventsFor, Replay, Decisions, FlightsTrail;
    var v := s.c.validations[n];
    assert EventsOk(s, n) && Shape(n, v) && LossShows(s, n);
    var events := EventsFor(s.c.events, v.uid);
    assert events + [] == events;
  }
}
