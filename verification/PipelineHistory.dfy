/** What every run keeps, external deletes included: phases, write-once fields, the event stream, dispatch. */
module PipelineHistory {
  import opened Wrappers
  import opened Crds
  import opened Encodings
  import opened Pipeline

  // ---- One validation ----

  // Which status fields are set in which phase
  predicate Shape(n: string, v: Validation) {
    var st, rank := v.Status(), v.Phase().Rank();
    && (v.status.Some? ==> st.phase.Some? && !st.phase.value.Pending? && !st.phase.value.Quarantined?)
    && st.tenantRef == (if rank >= 1 then Some(TenantName(n)) else None)
    && (st.startedAt.Some? <==> rank >= 1)
    && (rank >= 1 ==> st.observedGeneration == v.generation)
    && (st.evidenceHash.Some? <==> rank >= 4)
    && st.cartorioState == (if rank >= 5 then Some(ArtifactPending) else None)
    && (st.gateDecision.Some? <==> rank == 6)
    && (st.gateDecision.Some? ==> v.Phase() == PhaseFor(st.gateDecision.value.verdict))
    && (st.terminalAt.Some? <==> rank == 6)
    && (st.receipt.Some? ==> rank == 6)
  }

  // The phase changes a status write can make
  predicate Edge(p: Phase, q: Phase) {
    match p
    case Pending => q == Provisioning
    case Provisioning => q == Provisioning || q == Scanning
    case Scanning => q == Scanning || q == Aggregating || q == Provisioning
    case Aggregating => q == Attesting
    case Attesting => q == Gating
    case Gating => q == Passed || q == Phase.Failed
    case _ => false
  }

  // Fields that are written once keep their value
  predicate WriteOnce(a: ValidationStatus, b: ValidationStatus) {
    && (a.startedAt.Some? ==> b.startedAt == a.startedAt)
    && (a.evidenceHash.Some? ==> b.evidenceHash == a.evidenceHash)
    && (a.cartorioState.Some? ==> b.cartorioState == a.cartorioState)
    && (a.gateDecision.Some? ==> b.gateDecision == a.gateDecision)
    && (a.terminalAt.Some? ==> b.terminalAt == a.terminalAt)
    && (a.receipt.Some? ==> b.receipt.Some?)
  }

  predicate Grows(a: Validation, b: Validation) {
    && b.uid == a.uid && b.imageDigest == a.imageDigest && b.service == a.service && b.generation == a.generation
    && WriteOnce(a.Status(), b.Status())
    && (a.Phase().Terminal() ==> b.Phase() == a.Phase() && b.Status().scanJobs == a.Status().scanJobs)
    && (a.status.Some? ==> b.status.Some?)
  }

  lemma GateIsNeverQuarantine(cfg: Config, v: Validation, children: seq<ScanJob>, now: Time)
    ensures !GateOf(cfg, v, children, now).verdict.VerdictQuarantined?
  {
  }

  lemma GrowsRefl(v: Validation)
    ensures Grows(v, v)
  {
  }

  lemma GrowsTrans(a: Validation, b: Validation, c: Validation)
    requires Grows(a, b) && Grows(b, c)
    ensures Grows(a, c)
  {
  }

  lemma ProvisioningIsSound(cfg: Config, c: Cluster, n: string, v: Validation, now: Time)
    requires Shape(n, v) && v.Phase().Rank() <= 2
    ensures v.Phase().Pending? ==> PlanSound(n, v, PlanPending(n, v, now))
    ensures !v.Phase().Pending? ==> PlanSound(n, v, PlanProvisioning(cfg, c, n, v, now))
  {
    hide RequiredScanners;
  }

  lemma ScanningIsSound(cfg: Config, c: Cluster, n: string, v: Validation, listing: seq<string>, now: Time)
    requires forall k | k in listing :: k in c.scanJobs
    requires Shape(n, v) && v.Phase().Scanning?
    ensures PlanSound(n, v, PlanScanning(cfg, c, n, v, listing, now))
  {
    hide PlanProvisioning;
    ProvisioningIsSound(cfg, c, n, v, now);
  }

  lemma GatingIsSound(cfg: Config, c: Cluster, n: string, v: Validation, listing: seq<string>, now: Time)
    requires forall k | k in listing :: k in c.scanJobs
    requires Shape(n, v) && v.Phase().Gating?
    ensures PlanSound(n, v, PlanGating(cfg, c, v, listing, now))
  {
    hide GateOf;
    GateIsNeverQuarantine(cfg, v, Children(c, listing), now);
  }

  lemma PlanIsSound(cfg: Config, c: Cluster, n: string, listing: seq<string>, now: Time)
    requires n in c.validations && forall k | k in listing :: k in c.scanJobs
    requires Shape(n, c.validations[n])
    ensures PlanSound(n, c.validations[n], PlanOf(cfg, c, n, listing, now))
    ensures c.validations[n].Phase().Terminal() ==> PlanOf(cfg, c, n, listing, now) == Plan([], None)
  {
    hide PlanPending, PlanProvisioning, PlanScanning, PlanGating;
    var v := c.validations[n];
    match v.Phase()
    case Pending => ProvisioningIsSound(cfg, c, n, v, now);
    case Provisioning => ProvisioningIsSound(cfg, c, n, v, now);
    case Scanning => ScanningIsSound(cfg, c, n, v, listing, now);
    case Gating => GatingIsSound(cfg, c, n, v, listing, now);
    case _ =>
  }

  // The only backward edge: a validation that is scanning falls back to provisioning only when it finds
  // neither its tenant nor a single scan job
  lemma BackwardEdge(cfg: Config, c: Cluster, n: string, listing: seq<string>, now: Time)
    requires n in c.validations && Lists(c, n, listing) && Shape(n, c.validations[n])
    ensures var v := c.validations[n];
            var next := PlanOf(cfg, c, n, listing, now).next;
            next.Some? && next.value.phase.GetOr(Pending).Rank() < v.Phase().Rank() ==>
              && v.Phase() == Scanning && next.value.phase == Some(Provisioning)
              && TenantName(n) !in c.tenants
              && forall k | k in c.scanJobs :: c.scanJobs[k].parent != n
  {
    PlanIsSound(cfg, c, n, listing, now);
  }

  // ---- Events ----

  function RunOf(e: Event): string {
    match e case PhaseChanged(run, _, _) => run case DecisionEmitted(run, _, _) => run
  }

  function EventsFor(events: seq<Event>, uid: string): seq<Event> {
    if events == [] then []
    else
      var n := |events| - 1;
      EventsFor(events[..n], uid) + if RunOf(events[n]) == uid then [events[n]] else []
  }

  // The phase the stream leads to, when every change starts where the one before it ended
  function Replay(events: seq<Event>): Option<Phase> {
    if events == [] then Some(Pending)
    else
      var n := |events| - 1;
      var before := Replay(events[..n]);
      match events[n]
      case PhaseChanged(_, from, to) => if before == Some(from) then Some(to) else None
      case DecisionEmitted(_, _, _) => before
  }

  function Decisions(events: seq<Event>): seq<(Severity, Verdict)> {
    if events == [] then []
    else
      var n := |events| - 1;
      Decisions(events[..n]) +
      match events[n] case DecisionEmitted(_, severity, verdict) => [(severity, verdict)] case _ => []
  }

  function DecisionsOf(v: Validation): seq<(Severity, Verdict)> {
    var gate := v.Status().gateDecision;
    if gate.Some? then [(gate.value.severity, gate.value.verdict)] else []
  }

  // The stream tells the validation's story up to its present state
  predicate Tells(events: seq<Event>, v: Validation) {
    Replay(events) == Some(v.Phase()) && Decisions(events) == DecisionsOf(v)
  }

  // Events of a reconcile that has written its status and not published them all yet
  function Due(f: Flight): seq<Event> {
    if !f.Patched() then []
    else
      var all := Emitted(f.v, f.plan.next.value);
      var k := f.done - |f.plan.creates| - 1;
      if k <= |all| then all[k..] else []
  }

  lemma NothingDue(f: Flight)
    requires !f.Patched() || f.Over()
    ensures Due(f) == []
  {
  }

  lemma EmittedNamesTheRun(v: Validation, next: ValidationStatus)
    ensures forall i | 0 <= i < |Emitted(v, next)| :: RunOf(Emitted(v, next)[i]) == v.uid
  {
  }

  lemma NextDue(f: Flight)
    requires f.Patched() && !f.Over()
    ensures var e := EffectAt(f.plan, f.v, f.done);
            && e.Publish? && RunOf(e.event) == f.v.uid
            && Due(f) == [e.event] + Due(f.(done := f.done + 1))
  {
    hide Emitted;
    EmittedNamesTheRun(f.v, f.plan.next.value);
    var all := Emitted(f.v, f.plan.next.value);
    var k := f.done - |f.plan.creates| - 1;
    assert all[k..] == [all[k]] + all[k + 1..];
  }

  lemma ChangeTells(events: seq<Event>, v: Validation, w: Validation)
    requires Tells(events, v) && DecisionsOf(w) == DecisionsOf(v)
    ensures Tells(events + [PhaseChanged(v.uid, v.Phase(), w.Phase())], w)
  {
    var more := events + [PhaseChanged(v.uid, v.Phase(), w.Phase())];
    assert more[..|more| - 1] == events;
  }

  lemma DecisionTells(events: seq<Event>, v: Validation, w: Validation)
    requires Tells(events, v) && w.Phase() == v.Phase()
    requires v.Status().gateDecision.None? && w.Status().gateDecision.Some?
    ensures var gate := w.Status().gateDecision.value;
            Tells(events + [DecisionEmitted(v.uid, gate.severity, gate.verdict)], w)
  {
    var gate := w.Status().gateDecision.value;
    var more := events + [DecisionEmitted(v.uid, gate.severity, gate.verdict)];
    assert more[..|more| - 1] == events;
  }

  // The events of a status write carry the story from the old status to the new one
  lemma EmittedTells(events: seq<Event>, v: Validation, next: ValidationStatus)
    requires Tells(events, v) && next.phase.Some? && WriteOnce(v.Status(), next)
    ensures Tells(events + Emitted(v, next), v.(status := Some(next)))
  {
    hide Replay, Decisions;
    var w := v.(status := Some(next));
    // half-way: the new phase, and still the old decision
    var half := v.(status := Some(next.(gateDecision := v.Status().gateDecision)));
    var first := if w.Phase() != v.Phase() then events + [PhaseChanged(v.uid, v.Phase(), w.Phase())] else events;
    if w.Phase() != v.Phase() {
      ChangeTells(events, v, half);
    }
    assert Tells(first, half);
    if v.Status().gateDecision.None? && next.gateDecision.Some? {
      DecisionTells(first, half, w);
      assert events + Emitted(v, next) == first +
        [DecisionEmitted(v.uid, next.gateDecision.value.severity, next.gateDecision.value.verdict)];
    } else {
      assert events + Emitted(v, next) == first;
    }
  }

  lemma EventsForAppend(events: seq<Event>, e: Event, uid: string)
    ensures EventsFor(events + [e], uid) == EventsFor(events, uid) + if RunOf(e) == uid then [e] else []
  {
    assert (events + [e])[..|events|] == events;
  }

  // ---- The invariant of all runs ----

  ghost predicate ValidationsOk(c: Cluster) {
    && (forall n | n in c.validations :: Shape(n, c.validations[n]))
    && (forall n, m | n in c.validations && m in c.validations && c.validations[n].uid == c.validations[m].uid ::
          n == m)
  }

  // Whatever was read, the plan creates children only and writes a status along an edge
  predicate PlanSound(n: string, v: Validation, p: Plan) {
    && Shape(n, v)
    && (forall i | 0 <= i < |p.creates| :: p.creates[i].EnsureTenant? || p.creates[i].EnsureScanJob?)
    && (p.next.Some? ==>
          && p.next.value.phase.Some? && Edge(v.Phase(), p.next.value.phase.value)
          && Shape(n, v.(status := p.next)) && Grows(v, v.(status := p.next))
          && p.next.value.receipt == v.Status().receipt)
  }

  // A reconcile in progress still sees its validation as it read it, until it writes the status
  ghost predicate FlightOk(c: Cluster, n: string, f: Flight) {
    && n in c.validations && PlanSound(n, f.v, f.plan)
    && c.validations[n].uid == f.v.uid
    && (!f.Patched() ==> c.validations[n] == f.v || f.v.Phase().Terminal())
    && (f.v.Phase().Terminal() ==> f.plan == Plan([], None))
  }

  ghost predicate EventsOk(s: System, n: string)
    requires n in s.c.validations
  {
    n !in s.lost ==>
      Tells(EventsFor(s.c.events, s.c.validations[n].uid) + (if n in s.flights then Due(s.flights[n]) else []),
            s.c.validations[n])
  }

  ghost predicate DecidedBy(c: Cluster, d: Dispatch, n: string) {
    n in c.validations && c.validations[n].uid == d.key.run &&
    var gate := c.validations[n].Status().gateDecision;
    gate.Some? && gate.value.decidedAt == d.key.decidedAt && gate.value.action == Some(d.action)
  }

  ghost predicate DispatchOk(s: System) {
    && (forall i | 0 <= i < |s.dispatches| ::
          && s.dispatches[i].process <= s.process
          && (s.dispatches[i].process == s.process ==> s.dispatches[i].key in s.seen)
          && exists n :: DecidedBy(s.c, s.dispatches[i], n))
    && (forall i, j | 0 <= i < j < |s.dispatches| && s.dispatches[i].process == s.dispatches[j].process ::
          s.dispatches[i].key != s.dispatches[j].key)
  }

  // Events only ever name runs that exist
  ghost predicate EventsKnown(validations: map<string, Validation>, events: seq<Event>) {
    forall e | e in events :: exists n :: n in validations && validations[n].uid == RunOf(e)
  }

  lemma KnownStay(a: map<string, Validation>, b: map<string, Validation>, events: seq<Event>)
    requires EventsKnown(a, events)
    requires forall n | n in a :: n in b && b[n].uid == a[n].uid
    ensures EventsKnown(b, events)
  {
    forall e | e in events ensures exists n :: n in b && b[n].uid == RunOf(e) {
      var n :| n in a && a[n].uid == RunOf(e);
      assert n in b && b[n].uid == RunOf(e);
    }
  }

  ghost predicate HistoryOk(s: System) {
    && ValidationsOk(s.c)
    && EventsKnown(s.c.validations, s.c.events)
    && (forall n | n in s.flights :: FlightOk(s.c, n, s.flights[n]))
    && (forall n | n in s.c.validations :: EventsOk(s, n))
    && (forall n | n in s.lost :: n in s.c.validations)
    && DispatchOk(s)
  }

  // All the validations of a are in b, grown
  ghost predicate ClusterGrows(a: Cluster, b: Cluster) {
    forall n | n in a.validations :: n in b.validations && Grows(a.validations[n], b.validations[n])
  }

  // ---- Steps ----

  lemma SameClusterGrows(a: Cluster, b: Cluster)
    requires b.validations == a.validations
    ensures ClusterGrows(a, b)
  {
    forall n | n in a.validations ensures Grows(a.validations[n], b.validations[n]) {
      GrowsRefl(a.validations[n]);
    }
  }

  lemma OneGrows(a: Cluster, b: Cluster, n: string)
    requires n in a.validations && n in b.validations && b.validations == a.validations[n := b.validations[n]]
    requires Grows(a.validations[n], b.validations[n])
    ensures ClusterGrows(a, b)
  {
    forall m | m in a.validations ensures Grows(a.validations[m], b.validations[m]) {
      GrowsRefl(a.validations[m]);
    }
  }

  lemma DispatchesStayDecided(a: System, b: System)
    requires DispatchOk(a) && ClusterGrows(a.c, b.c)
    requires b.dispatches == a.dispatches && b.process == a.process && b.seen == a.seen
    ensures DispatchOk(b)
  {
    forall i | 0 <= i < |b.dispatches| ensures exists n :: DecidedBy(b.c, b.dispatches[i], n) {
      var n :| DecidedBy(a.c, a.dispatches[i], n);
      assert DecidedBy(b.c, b.dispatches[i], n);
    }
  }

  // A step that writes no status and publishes nothing
  lemma QuietStep(s: System, t: System)
    requires HistoryOk(s)
    requires t.c.validations == s.c.validations && t.c.events == s.c.events
    requires t.flights == s.flights && t.lost == s.lost
    requires t.process == s.process && t.seen == s.seen && t.dispatches == s.dispatches
    ensures HistoryOk(t)
  {
    hide Shape, Tells, Grows, EventsFor, Due, DecidedBy, PlanSound, ClusterGrows, DispatchOk;
    SameClusterGrows(s.c, t.c);
    DispatchesStayDecided(s, t);
    forall n | n in t.c.validations ensures EventsOk(t, n) {
      assert EventsOk(s, n);
    }
  }

  // A reconcile begins or ends: nothing is due before the status is written nor after the last event
  lemma FlightStep(s: System, t: System, n: string)
    requires HistoryOk(s) && n in s.c.validations
    requires t == s.(flights := t.flights)
    requires t.flights.Keys <= s.flights.Keys + {n} && s.flights.Keys <= t.flights.Keys + {n}
    requires forall m | m in t.flights && m != n :: t.flights[m] == s.flights[m]
    requires n in t.flights ==> FlightOk(t.c, n, t.flights[n]) && Due(t.flights[n]) == []
    requires n in s.flights ==> Due(s.flights[n]) == []
    ensures HistoryOk(t)
  {
    hide Tells, EventsFor, Due, DecidedBy, ClusterGrows, DispatchOk, FlightOk, ValidationsOk, EventsKnown;
    SameClusterGrows(s.c, t.c);
    DispatchesStayDecided(s, t);
    forall m | m in t.c.validations ensures EventsOk(t, m) {
      assert EventsOk(s, m);
    }
  }

  lemma BeginStep(cfg: Config, s: System, n: string, listing: seq<string>, now: Time)
    requires HistoryOk(s)
    ensures HistoryOk(Next(cfg, s, Begin(n, listing, now)))
  {
    var t := Next(cfg, s, Begin(n, listing, now));
    if t != s {
      PlanIsSound(cfg, s.c, n, listing, now);
      FlightStep(s, t, n);
    }
  }

  // Creating a child: the validation and its events are untouched
  lemma CreateStep(s: System, n: string)
    requires HistoryOk(s) && n in s.flights && s.flights[n].done < |s.flights[n].plan.creates|
    ensures HistoryOk(ContinueFlight(s, n))
  {
    hide Shape, Tells, Grows, EventsFor, Edge, DecidedBy, EventsOk;
    var f := s.flights[n];
    var t := ContinueFlight(s, n);
    assert FlightOk(s.c, n, f);
    assert EffectAt(f.plan, f.v, f.done) == f.plan.creates[f.done];
    assert t.c.validations == s.c.validations && t.c.events == s.c.events;
    var u := s.(c := t.c);
    QuietStep(s, u);
    assert FlightOk(t.c, n, t.flights[n]);
    FlightStep(u, t, n);
  }

  lemma PatchTellsOn(s: System, t: System, n: string, f: Flight)
    requires n in s.flights && s.flights[n] == f && FlightOk(s.c, n, f) && !f.Patched() && EventsOk(s, n)
    requires f.plan.next.Some? && s.c.validations[n] == f.v
    requires n in t.flights && t.flights[n] == f.(done := |f.plan.creates| + 1)
    requires n in t.c.validations && t.c.validations[n] == f.v.(status := f.plan.next)
    requires t.c.events == s.c.events && t.lost == s.lost
    ensures EventsOk(t, n)
  {
    hide Shape, Tells, EventsFor, Edge, Emitted, WriteOnce;
    if n !in t.lost {
      var events := EventsFor(s.c.events, f.v.uid);
      assert Due(f) == [] && events + [] == events;
      assert WriteOnce(f.v.Status(), f.plan.next.value);
      EmittedTells(events, f.v, f.plan.next.value);
      var all := Emitted(f.v, f.plan.next.value);
      assert Due(t.flights[n]) == all[0..] == all;
    }
  }

  lemma OtherFlightStays(c: Cluster, d: Cluster, n: string, f: Flight)
    requires FlightOk(c, n, f) && (n in c.validations ==> n in d.validations && d.validations[n] == c.validations[n])
    ensures FlightOk(d, n, f)
  {
    hide PlanSound;
  }

  lemma GrowsKeepsTheRun(a: Validation, b: Validation)
    requires Grows(a, b)
    ensures b.uid == a.uid
  {
  }

  // A step that writes the status of one validation and publishes nothing
  lemma WriteStep(s: System, t: System, n: string)
    requires HistoryOk(s) && n in s.c.validations && n in t.c.validations
    requires t.c.validations == s.c.validations[n := t.c.validations[n]] && t.c.events == s.c.events
    requires Grows(s.c.validations[n], t.c.validations[n]) && Shape(n, t.c.validations[n])
    requires t.lost == s.lost && t.process == s.process && t.seen == s.seen && t.dispatches == s.dispatches
    requires t.flights.Keys == s.flights.Keys && forall m | m in t.flights && m != n :: t.flights[m] == s.flights[m]
    requires n in t.flights ==> FlightOk(t.c, n, t.flights[n])
    requires EventsOk(t, n)
    ensures HistoryOk(t)
  {
    hide Shape, Tells, EventsFor, DecidedBy, Due, FlightOk, EventsKnown, DispatchOk, ClusterGrows, Grows;
    GrowsKeepsTheRun(s.c.validations[n], t.c.validations[n]);
    OneGrows(s.c, t.c, n);
    DispatchesStayDecided(s, t);
    KnownStay(s.c.validations, t.c.validations, s.c.events);
    forall m | m in t.flights ensures FlightOk(t.c, m, t.flights[m]) {
      if m != n { OtherFlightStays(s.c, t.c, m, t.flights[m]); }
    }
    forall m | m in t.c.validations ensures EventsOk(t, m) {
      assert m != n ==> EventsOk(s, m);
    }
  }

  // Writing the status: the phase moves along an edge and its events fall due
  lemma PatchStep(s: System, n: string)
    requires HistoryOk(s) && n in s.flights
    requires s.flights[n].plan.next.Some? && s.flights[n].done == |s.flights[n].plan.creates|
    ensures HistoryOk(ContinueFlight(s, n))
  {
    hide Shape, Tells, Grows, EventsFor, Edge, DecidedBy, Due, Emitted, EventsOk, EventsKnown, DispatchOk,
      ValidationsOk;
    var f := s.flights[n];
    assert FlightOk(s.c, n, f) && EventsOk(s, n);
    var t := ContinueFlight(s, n);
    assert EffectAt(f.plan, f.v, f.done) == PatchStatus(f.plan.next.value);
    assert t.c.validations == s.c.validations[n := f.v.(status := f.plan.next)] && t.c.events == s.c.events;
    PatchTellsOn(s, t, n, f);
    PatchedFlightOk(t.c, n, t.flights[n]);
    hide HistoryOk, FlightOk;
    WriteStep(s, t, n);
  }

  lemma PatchedFlightOk(c: Cluster, n: string, f: Flight)
    requires PlanSound(n, f.v, f.plan) && f.Patched() && n in c.validations && c.validations[n].uid == f.v.uid
    requires f.v.Phase().Terminal() ==> f.plan == Plan([], None)
    ensures FlightOk(c, n, f)
  {
  }

  // Publishing: an event moves from the due list to the stream
  lemma PublishKeepsTheStory(s: System, t: System, n: string, e: Event, m: string)
    requires n in s.flights && n in t.flights && n in s.c.validations && m in s.c.validations
    requires t.c.validations == s.c.validations && t.c.events == s.c.events + [e] && t.lost == s.lost
    requires RunOf(e) == s.c.validations[n].uid && Due(s.flights[n]) == [e] + Due(t.flights[n])
    requires m != n ==> s.c.validations[m].uid != s.c.validations[n].uid && (m in t.flights <==> m in s.flights)
    requires m != n && m in s.flights ==> t.flights[m] == s.flights[m]
    requires EventsOk(s, m)
    ensures EventsOk(t, m)
  {
    hide Tells, Due, EventsFor;
    var uid := s.c.validations[m].uid;
    EventsForAppend(s.c.events, e, uid);
    var events := EventsFor(s.c.events, uid);
    if m == n {
      assert (events + [e]) + Due(t.flights[n]) == events + Due(s.flights[n]);
    } else {
      assert events + [] == events;
    }
  }

  lemma PublishStep(s: System, n: string)
    requires HistoryOk(s) && n in s.flights && s.flights[n].Patched() && !s.flights[n].Over()
    ensures HistoryOk(ContinueFlight(s, n))
  {
    hide Shape, Grows, Edge, DecidedBy, EffectAt, EffectCount, Due, EventsOk, PlanSound;
    var f := s.flights[n];
    assert FlightOk(s.c, n, f);
    var t := ContinueFlight(s, n);
    NextDue(f);
    var e := EffectAt(f.plan, f.v, f.done).event;
    assert t.c.validations == s.c.validations && t.c.events == s.c.events + [e];
    SameClusterGrows(s.c, t.c);
    DispatchesStayDecided(s, t);
    forall m | m in t.flights ensures FlightOk(t.c, m, t.flights[m]) {
      assert FlightOk(s.c, m, s.flights[m]);
    }
    forall x | x in t.c.events ensures exists k :: k in t.c.validations && t.c.validations[k].uid == RunOf(x) {
      assert x in s.c.events || x == e;
      assert t.c.validations[n].uid == RunOf(e);
    }
    forall m | m in t.c.validations ensures EventsOk(t, m) {
      PublishKeepsTheStory(s, t, n, e, m);
    }
  }

  lemma ContinueStep(cfg: Config, s: System, n: string)
    requires HistoryOk(s)
    ensures HistoryOk(Next(cfg, s, Continue(n)))
  {
    if n in s.flights {
      var f := s.flights[n];
      if f.Over() {
        NothingDue(f);
        FlightStep(s, ContinueFlight(s, n), n);
      } else if f.done < |f.plan.creates| {
        CreateStep(s, n);
      } else if f.Patched() {
        PublishStep(s, n);
      } else {
        PatchStep(s, n);
      }
    }
  }

  // Dropping: the event leaves the due list and is not in the stream
  lemma DropStep(cfg: Config, s: System, n: string)
    requires HistoryOk(s)
    ensures HistoryOk(Next(cfg, s, DropEvent(n)))
  {
    hide Shape, Tells, Grows, EventsFor, Edge, DecidedBy, PlanSound, EventsKnown, DispatchOk, ClusterGrows,
      ValidationsOk, Emitted;
    if n in s.flights {
      var t := DropFlight(s, n);
      assert FlightOk(s.c, n, s.flights[n]);
      SameClusterGrows(s.c, t.c);
      DispatchesStayDecided(s, t);
      forall m | m in t.c.validations ensures EventsOk(t, m) {
        assert EventsOk(s, m);
      }
    }
  }

  lemma CrashStep(cfg: Config, s: System, n: string)
    requires HistoryOk(s)
    ensures HistoryOk(Next(cfg, s, Crash(n)))
  {
    hide Shape, Tells, Grows, EventsFor, Edge, DecidedBy;
    if n in s.flights {
      var f := s.flights[n];
      var t := CrashFlight(s, n);
      assert FlightOk(s.c, n, f);
      if !f.Patched() || f.Over() {
        NothingDue(f);
        FlightStep(s, t, n);
      } else {
        SameClusterGrows(s.c, t.c);
        DispatchesStayDecided(s, t);
        forall m | m in t.c.validations ensures EventsOk(t, m) {
          assert EventsOk(s, m);
        }
      }
    }
  }

  lemma ReceiptGrows(n: string, v: Validation, r: Receipt)
    requires Shape(n, v) && v.Phase().Terminal()
    ensures var w := v.(status := Some(v.Status().(receipt := Some(r))));
            && Grows(v, w) && Shape(n, w) && w.Phase() == v.Phase()
            && forall events :: Tells(events, v) ==> Tells(events, w)
  {
  }

  lemma StoryKept(s: System, t: System, n: string, v: Validation, w: Validation)
    requires n in s.c.validations && n in t.c.validations && s.c.validations[n] == v && t.c.validations[n] == w
    requires t.c.events == s.c.events && t.flights == s.flights && t.lost == s.lost && w.uid == v.uid
    requires forall events :: Tells(events, v) ==> Tells(events, w)
    requires EventsOk(s, n)
    ensures EventsOk(t, n)
  {
    hide Tells, EventsFor, Due;
  }

  lemma ReceiptStep(cfg: Config, s: System, n: string, observed: Validation, now: Time)
    requires HistoryOk(s)
    ensures HistoryOk(Next(cfg, s, AppendReceipt(n, observed, now)))
  {
    hide Shape, Tells, Grows, DecidedBy, BuildReceipt, PlanSound, EventsOk, EventsKnown, DispatchOk, MayObserve;
    var t := Next(cfg, s, AppendReceipt(n, observed, now));
    if t != s {
      var v, w := s.c.validations[n], t.c.validations[n];
      FinalVersionMeansFinal(n, observed, v);
      ReceiptGrows(n, v, BuildReceipt(cfg, observed, now));
      StoryKept(s, t, n, v, w);
      if n in s.flights { ReceiptedFlightOk(s.c, t.c, n, s.flights[n]); }
      hide HistoryOk, Next;
      WriteStep(s, t, n);
    }
  }

  lemma FinalVersionMeansFinal(n: string, observed: Validation, v: Validation)
    requires MayObserve(observed, v) && observed.Phase().Terminal()
    ensures v.Phase().Terminal()
  {
  }

  lemma ReceiptedFlightOk(c: Cluster, d: Cluster, n: string, f: Flight)
    requires FlightOk(c, n, f) && n in d.validations && d.validations[n].uid == c.validations[n].uid
    requires c.validations[n].Phase().Terminal()
    ensures FlightOk(d, n, f)
  {
    hide PlanSound;
  }

  lemma DispatchStep(s: System, t: System)
    requires HistoryOk(s) && DispatchOk(t)
    requires t == s.(process := t.process, seen := t.seen, dispatches := t.dispatches)
    ensures HistoryOk(t)
  {
    hide Shape, Tells, EventsFor, Edge, Grows, Due, PlanSound;
    forall m | m in t.c.validations ensures EventsOk(t, m) {
      assert EventsOk(s, m);
    }
  }

  lemma DeliverStep(cfg: Config, s: System, n: string, observed: Validation)
    requires HistoryOk(s)
    ensures HistoryOk(Next(cfg, s, Deliver(n, observed)))
  {
    hide Shape, Tells, EventsFor, Edge, Grows, Due, PlanSound, EventsOk;
    var t := Next(cfg, s, Deliver(n, observed));
    if n in s.c.validations && MayObserve(observed, s.c.validations[n]) {
      forall i | 0 <= i < |t.dispatches| ensures exists m :: DecidedBy(t.c, t.dispatches[i], m) {
        if i < |s.dispatches| {
          var m :| DecidedBy(s.c, s.dispatches[i], m);
          assert DecidedBy(t.c, t.dispatches[i], m);
        } else {
          assert DecidedBy(t.c, t.dispatches[i], n);
        }
      }
      DispatchStep(s, t);
    }
  }

  lemma RestartStep(cfg: Config, s: System)
    requires HistoryOk(s)
    ensures HistoryOk(Next(cfg, s, RestartDispatcher))
  {
    var t := Next(cfg, s, RestartDispatcher);
    forall i | 0 <= i < |t.dispatches| ensures exists n :: DecidedBy(t.c, t.dispatches[i], n) {
      var n :| DecidedBy(s.c, s.dispatches[i], n);
      assert DecidedBy(t.c, t.dispatches[i], n);
    }
    DispatchStep(s, t);
  }

  lemma {:induction false} NoEventsFor(events: seq<Event>, uid: string)
    requires forall e | e in events :: RunOf(e) != uid
    ensures EventsFor(events, uid) == []
  {
    if events != [] { NoEventsFor(events[..|events| - 1], uid); }
  }

  lemma NewcomerHasNoStory(n: string, events: seq<Event>, v: Validation)
    requires v.status.None? && forall e | e in events :: RunOf(e) != v.uid
    ensures Tells(EventsFor(events, v.uid) + [], v) && Shape(n, v)
  {
    NoEventsFor(events, v.uid);
  }

  lemma AddedGrows(a: Cluster, b: Cluster, n: string)
    requires n !in a.validations && n in b.validations && b.validations == a.validations[n := b.validations[n]]
    ensures ClusterGrows(a, b)
  {
    forall m | m in a.validations ensures Grows(a.validations[m], b.validations[m]) {
      GrowsRefl(a.validations[m]);
    }
  }

  lemma CreateValidationStep(cfg: Config, s: System, step: Step)
    requires HistoryOk(s) && step.CreateValidation?
    ensures HistoryOk(Next(cfg, s, step))
  {
    hide Shape, FlightOk, EventsFor, Tells, Due, DispatchOk, ClusterGrows, Next, EventsKnown;
    var t := Next(cfg, s, step);
    if t != s {
      var n := step.n;
      NewcomerFits(cfg, s, step);
      AddedGrows(s.c, t.c, n);
      DispatchesStayDecided(s, t);
      KnownStay(s.c.validations, t.c.validations, s.c.events);
      NewcomerHasNoStory(n, t.c.events, t.c.validations[n]);
      forall m | m in t.flights ensures FlightOk(t.c, m, t.flights[m]) {
        OtherFlightStays(s.c, t.c, m, s.flights[m]);
      }
      forall m | m in t.c.validations ensures EventsOk(t, m) {
        assert m != n ==> EventsOk(s, m);
      }
    }
  }

  // A new validation meets nothing that is about it
  lemma NewcomerFits(cfg: Config, s: System, step: Step)
    requires HistoryOk(s) && step.CreateValidation? && Next(cfg, s, step) != s
    ensures var t, v := Next(cfg, s, step), Validation(step.imageDigest, step.service, step.uid, step.generation, None);
            && t == s.(c := s.c.(validations := s.c.validations[step.n := v]))
            && step.n !in s.c.validations && step.n !in s.flights && step.n !in s.lost
            && (forall m | m in s.flights :: m in s.c.validations)
            && (forall m | m in s.c.validations :: s.c.validations[m].uid != v.uid)
            && (forall e | e in s.c.events :: RunOf(e) != v.uid)
  {
    hide Shape, PlanSound, EventsOk, DispatchOk;
    assert forall m | m in s.flights :: FlightOk(s.c, m, s.flights[m]);
  }

  // Whatever happens next, deletes included, the invariant holds and validations only grow
  lemma StepKeepsHistory(cfg: Config, s: System, step: Step)
    requires HistoryOk(s)
    ensures HistoryOk(Next(cfg, s, step))
  {
    hide HistoryOk;
    match step
    case Begin(n, listing, now) => BeginStep(cfg, s, n, listing, now);
    case Continue(n) => ContinueStep(cfg, s, n);
    case DropEvent(n) => DropStep(cfg, s, n);
    case Crash(n) => CrashStep(cfg, s, n);
    case AppendReceipt(n, observed, now) => ReceiptStep(cfg, s, n, observed, now);
    case Deliver(n, observed) => DeliverStep(cfg, s, n, observed);
    case RestartDispatcher => RestartStep(cfg, s);
    case CreateValidation(_, _, _, _, _) => CreateValidationStep(cfg, s, step);
    case _ => QuietStep(s, Next(cfg, s, step));
  }

  lemma RunAppend(cfg: Config, s: System, steps: seq<Step>, step: Step)
    ensures Run(cfg, s, steps + [step]) == Next(cfg, Run(cfg, s, steps), step)
  {
    hide Next;
    assert (steps + [step])[..|steps|] == steps;
  }

  // ---- Theorems about every run ----

  lemma {:induction false} HistoryHolds(cfg: Config, steps: seq<Step>)
    ensures HistoryOk(Run(cfg, EMPTY_SYSTEM, steps))
  {
    if steps != [] {
      HistoryHolds(cfg, steps[..|steps| - 1]);
      StepKeepsHistory(cfg, Run(cfg, EMPTY_SYSTEM, steps[..|steps| - 1]), steps[|steps| - 1]);
    }
  }

  lemma NextIs(cfg: Config, s: System, step: Step)
    ensures step.Continue? ==> Next(cfg, s, step) == if step.n in s.flights then ContinueFlight(s, step.n) else s
    ensures step.Crash? ==> Next(cfg, s, step) == if step.n in s.flights then CrashFlight(s, step.n) else s
    ensures step.DropEvent? ==> Next(cfg, s, step) == if step.n in s.flights then DropFlight(s, step.n) else s
  {
    hide ContinueFlight, CrashFlight, DropFlight;
  }

  lemma OnlyCreationAdds(cfg: Config, s: System, step: Step, n: string)
    requires HistoryOk(s) && n !in s.c.validations && n in Next(cfg, s, step).c.validations
    ensures step.CreateValidation? && step.n == n && Next(cfg, s, step) != s
  {
    hide EventsOk, EventsKnown, DispatchOk, ValidationsOk, PlanOf, TenantAfter, ScanJobNext, BuildReceipt,
      HandleDelivery, MayObserve, ContinueFlight;
    if step.Continue? && step.n in s.flights {
      assert FlightOk(s.c, step.n, s.flights[step.n]);
      ContinuedValidations(s, step.n);
    }
  }

  // Only a reconcile's status write and the receipt change a stored validation
  lemma OnlyTwoStepsWriteAStatus(cfg: Config, s: System, step: Step, n: string)
    requires n in s.c.validations
    ensures !step.Continue? && !step.AppendReceipt? ==>
              n in Next(cfg, s, step).c.validations && Next(cfg, s, step).c.validations[n] == s.c.validations[n]
    ensures step.Continue? ==> Next(cfg, s, step) == if step.n in s.flights then ContinueFlight(s, step.n) else s
    ensures step.AppendReceipt? && step.n != n ==>
              n in Next(cfg, s, step).c.validations && Next(cfg, s, step).c.validations[n] == s.c.validations[n]
  {
    hide ContinueFlight, PlanOf, BuildReceipt, HandleDelivery, TenantAfter, ScanJobNext;
  }

  // Over every run: the phase tells which status fields are set, and a terminal phase is its verdict's
  lemma StatusMatchesPhase(cfg: Config, steps: seq<Step>, n: string)
    requires n in Run(cfg, EMPTY_SYSTEM, steps).c.validations
    ensures var v := Run(cfg, EMPTY_SYSTEM, steps).c.validations[n];
            var st, rank := v.Status(), v.Phase().Rank();
            && !v.Phase().Quarantined?
            && (rank >= 1 ==> st.observedGeneration == v.generation)
            && st.tenantRef == (if rank >= 1 then Some("eph-" + n) else None) && (st.startedAt.Some? <==> rank >= 1)
            && (st.evidenceHash.Some? <==> rank >= 4)
            && st.cartorioState == (if rank >= 5 then Some(ArtifactPending) else None)
            && (st.gateDecision.Some? <==> v.Phase().Terminal()) && (st.terminalAt.Some? <==> v.Phase().Terminal())
            && (v.Phase() == Passed <==> st.gateDecision.Some? && st.gateDecision.value.verdict == VerdictPassed)
            && (v.Phase() == Phase.Failed <==> st.gateDecision.Some? && st.gateDecision.value.verdict == VerdictFailed)
            && (st.receipt.Some? ==> v.Phase().Terminal())
  {
    HistoryHolds(cfg, steps);
    hide Run, FlightOk, EventsOk, EventsKnown, DispatchOk;
    assert Shape(n, Run(cfg, EMPTY_SYSTEM, steps).c.validations[n]);
  }

  // One step moves a validation along an edge of the phase chain or leaves its phase alone,
  // and never touches a field that is written once
  lemma StepFollowsTheChain(cfg: Config, s: System, step: Step, n: string)
    requires HistoryOk(s) && n in s.c.validations
    ensures n in Next(cfg, s, step).c.validations
    ensures var v, w := s.c.validations[n], Next(cfg, s, step).c.validations[n];
            Grows(v, w) && (w.Phase() == v.Phase() || Edge(v.Phase(), w.Phase()))
  {
    hide HistoryOk, ContinueFlight, BuildReceipt, HandleDelivery, TenantAfter, ScanJobNext, PlanOf, Grows, Edge;
    GrowsRefl(s.c.validations[n]);
    if step.Continue? && step.n in s.flights {
      ContinueFollowsTheChain(s, step.n, n);
    } else if step.AppendReceipt? && step.n == n {
      ReceiptFollowsTheChain(cfg, s, n, step.observed, step.now);
    }
  }

  // What one more effect of a reconcile does to the stored validations: the status write replaces one
  lemma ContinuedValidations(s: System, k: string)
    requires k in s.flights && FlightOk(s.c, k, s.flights[k])
    ensures var f := s.flights[k];
            ContinueFlight(s, k).c.validations ==
              if f.done == |f.plan.creates| && f.plan.next.Some?
              then s.c.validations[k := f.v.(status := f.plan.next)] else s.c.validations
    ensures var f := s.flights[k];
            f.done == |f.plan.creates| && f.plan.next.Some? ==> s.c.validations[k] == f.v
  {
    hide Emitted, Shape, Edge, Grows;
    var f := s.flights[k];
    if f.done < |f.plan.creates| {
      assert EffectAt(f.plan, f.v, f.done) == f.plan.creates[f.done];
    }
  }

  lemma ContinueFollowsTheChain(s: System, k: string, n: string)
    requires HistoryOk(s) && n in s.c.validations && k in s.flights
    ensures n in ContinueFlight(s, k).c.validations
    ensures var v, w := s.c.validations[n], ContinueFlight(s, k).c.validations[n];
            Grows(v, w) && (w.Phase() == v.Phase() || Edge(v.Phase(), w.Phase()))
  {
    hide Edge, Shape, Grows, EventsOk, DispatchOk, EventsKnown, ContinueFlight, ValidationsOk;
    GrowsRefl(s.c.validations[n]);
    assert FlightOk(s.c, k, s.flights[k]);
    ContinuedValidations(s, k);
  }

  lemma ReceiptFollowsTheChain(cfg: Config, s: System, n: string, observed: Validation, now: Time)
    requires HistoryOk(s) && n in s.c.validations
    ensures var t := Next(cfg, s, AppendReceipt(n, observed, now));
            n in t.c.validations && Grows(s.c.validations[n], t.c.validations[n])
            && t.c.validations[n].Phase() == s.c.validations[n].Phase()
  {
    hide EventsOk, DispatchOk, FlightOk, BuildReceipt, EventsKnown, Grows, Shape;
    var v := s.c.validations[n];
    GrowsRefl(v);
    if v.Phase().Terminal() {
      ReceiptGrows(n, v, BuildReceipt(cfg, observed, now));
    }
  }

  lemma {:induction false} RunGrows(cfg: Config, s: System, steps: seq<Step>, n: string)
    requires HistoryOk(s) && n in s.c.validations
    ensures HistoryOk(Run(cfg, s, steps)) && n in Run(cfg, s, steps).c.validations
    ensures Grows(s.c.validations[n], Run(cfg, s, steps).c.validations[n])
  {
    hide HistoryOk, Grows, Next;
    GrowsRefl(s.c.validations[n]);
    if steps != [] {
      var before := Run(cfg, s, steps[..|steps| - 1]);
      var last := steps[|steps| - 1];
      RunGrows(cfg, s, steps[..|steps| - 1], n);
      StepKeepsHistory(cfg, before, last);
      StepFollowsTheChain(cfg, before, last, n);
      GrowsTrans(s.c.validations[n], before.c.validations[n], Next(cfg, before, last).c.validations[n]);
    }
  }

  // A version of a validation from any earlier point of the run is one the dispatcher may still be handed
  lemma PastVersionsAreObservable(cfg: Config, s: System, steps: seq<Step>, n: string)
    requires HistoryOk(s) && n in s.c.validations
    ensures n in Run(cfg, s, steps).c.validations
    ensures MayObserve(s.c.validations[n], Run(cfg, s, steps).c.validations[n])
  {
    RunGrows(cfg, s, steps, n);
  }

  // When no event was dropped, no reconcile died between its status write and its last event, and none is under way,
  // replaying the stream gives the phase, and the decision was announced once, when it was made
  lemma EventStreamReplaysTheState(cfg: Config, steps: seq<Step>, n: string)
    requires var s := Run(cfg, EMPTY_SYSTEM, steps); n in s.c.validations && n !in s.lost && n !in s.flights
    ensures var s := Run(cfg, EMPTY_SYSTEM, steps);
            var v := s.c.validations[n];
            var events := EventsFor(s.c.events, v.uid);
            && Replay(events) == Some(v.Phase())
            && |Decisions(events)| == (if v.Phase().Terminal() then 1 else 0)
            && Decisions(events) == DecisionsOf(v)
  {
    hide Next, Replay, Decisions, EventsFor, DispatchOk, FlightOk;
    HistoryHolds(cfg, steps);
    var s := Run(cfg, EMPTY_SYSTEM, steps);
    assert EventsOk(s, n);
    var events := EventsFor(s.c.events, s.c.validations[n].uid);
    assert events + [] == events;
    assert Shape(n, s.c.validations[n]);
  }

  // Over any schedule of watch events with replays and stale versions, one dispatcher process executes
  // at most one action for a validation, and it is the action of that validation's decision
  lemma DispatchedAtMostOncePerProcess(cfg: Config, steps: seq<Step>, i: nat, j: nat)
    requires var s := Run(cfg, EMPTY_SYSTEM, steps); i < |s.dispatches| && j < |s.dispatches|
    ensures var d := Run(cfg, EMPTY_SYSTEM, steps).dispatches;
            d[i].process == d[j].process && d[i].key.run == d[j].key.run ==> i == j
    ensures var s := Run(cfg, EMPTY_SYSTEM, steps);
            exists n :: DecidedBy(s.c, s.dispatches[i], n) && s.c.validations[n].Phase().Terminal()
  {
    HistoryHolds(cfg, steps);
    var s := Run(cfg, EMPTY_SYSTEM, steps);
    var n :| DecidedBy(s.c, s.dispatches[i], n);
    var m :| DecidedBy(s.c, s.dispatches[j], m);
    assert Shape(n, s.c.validations[n]);
    var a, b := s.dispatches[i], s.dispatches[j];
    if a.process == b.process && a.key.run == b.key.run {
      assert n == m && a.key == b.key;
    }
  }
}
