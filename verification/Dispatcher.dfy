/** The action dispatcher: watch events with replays in, executions and audit rows out. */
module Dispatcher {
  import opened Wrappers
  import opened Actions
  import opened Executor
  import opened Subsequences
  import opened Pipeline
  import opened PipelineHistory

  // ---- As it runs ----

  class DedupeSet {
    var seen: set<DispatchKey>

    constructor ()
      ensures seen == {}
    {
      seen := {};
    }

    // True when the key is new
    method Record(key: DispatchKey) returns (isNew: bool)
      modifies this
      ensures isNew == (key !in old(seen)) && seen == old(seen) + {key}
    {
      isNew := key !in seen;
      seen := seen + {key};
    }
  }

  // One dispatcher process: what it has seen, executed, called and stored
  datatype Process = Process(
    seen: set<DispatchKey>, executed: seq<(DispatchKey, TypedAction)>, calls: seq<TypedAction>, rows: seq<OutcomeRow>)

  const FRESH_PROCESS := Process({}, [], [], [])

  // What the outside world answers: the foreign executors, and the store for row j of execution i
  datatype World = World(wiring: Wiring, stored: (nat, nat) -> bool)

  function StoredOf(w: World, execution: nat): nat -> bool {
    (j: nat) => w.stored(execution, j)
  }

  function AfterDelivery(w: World, d: Process, obj: Validation): Process {
    var (seen, action) := HandleDelivery(d.seen, obj);
    var gate := obj.Status().gateDecision;
    if action.None? || gate.None? then d.(seen := seen)
    else
      var (outcome, calls) := Execute(w.wiring, d.calls, action.value);
      Process(seen, d.executed + [(DispatchKey(obj.uid, gate.value.decidedAt), action.value)], calls,
              d.rows + Kept(Rows(action.value, outcome), StoredOf(w, |d.executed|)))
  }

  function AfterAll(w: World, d: Process, objs: seq<Validation>): Process {
    if objs == [] then d
    else AfterDelivery(w, AfterAll(w, d, objs[..|objs| - 1]), objs[|objs| - 1])
  }

  class ActionDispatcher {
    const dedupe: DedupeSet
    const executor: ActionExecutor
    const stored: (nat, nat) -> bool
    var executed: seq<(DispatchKey, TypedAction)>
    var rows: seq<OutcomeRow>

    constructor (world: World)
      ensures fresh(dedupe) && fresh(executor) && Outside() == world && State() == FRESH_PROCESS
    {
      dedupe := new DedupeSet();
      executor := new ActionExecutor(world.wiring);
      stored := world.stored;
      executed, rows := [], [];
    }

    function Outside(): World { World(executor.wiring, stored) }

    ghost function State(): Process
      reads this, dedupe, executor
    {
      Process(dedupe.seen, executed, executor.calls, rows)
    }

    method Handle(obj: Validation)
      modifies this, dedupe, executor
      ensures State() == AfterDelivery(Outside(), old(State()), obj)
    {
      if obj.status.None? { return; }
      var gate := obj.status.value.gateDecision;
      if gate.None? { return; }
      var key := DispatchKey(obj.uid, gate.value.decidedAt);
      var isNew := dedupe.Record(key);
      if !isNew {
        assert old(dedupe.seen) + {key} == old(dedupe.seen);
        return;
      }
      if gate.value.action.None? { return; }
      var action := gate.value.action.value;
      var outcome := executor.Run(action);
      rows := PersistRows(action, outcome, rows, StoredOf(Outside(), |executed|));
      executed := executed + [(key, action)];
    }

    method Watch(stream: seq<Validation>)
      modifies this, dedupe, executor
      ensures State() == AfterAll(Outside(), old(State()), stream)
    {
      for i := 0 to |stream|
        invariant State() == AfterAll(Outside(), old(State()), stream[..i])
      {
        Handle(stream[i]);
        assert stream[..i + 1][..i] == stream[..i];
      }
      assert stream[..|stream|] == stream;
    }
  }

  // ---- What any stream of deliveries leads to ----

  function KeyOf(obj: Validation): Option<DispatchKey> {
    var gate := obj.Status().gateDecision;
    if gate.Some? then Some(DispatchKey(obj.uid, gate.value.decidedAt)) else None
  }

  // Delivered before: nothing happens at all
  lemma ReplayIsSilent(w: World, d: Process, obj: Validation)
    requires KeyOf(obj).Some? ==> KeyOf(obj).value in d.seen
    ensures AfterDelivery(w, d, obj) == d
  {
  }

  // Nothing is executed twice, nothing that was not delivered with its decision, and nothing is forgotten
  lemma {:induction false} ExecutedOncePerDecision(w: World, objs: seq<Validation>)
    ensures var d := AfterAll(w, FRESH_PROCESS, objs);
            && (forall i, j | 0 <= i < j < |d.executed| :: d.executed[i].0 != d.executed[j].0)
            && (forall i | 0 <= i < |d.executed| :: d.executed[i].0 in d.seen)
            && (forall key :: key in d.seen <==> exists k :: 0 <= k < |objs| && KeyOf(objs[k]) == Some(key))
  {
    hide Execute, Rows;
    if objs != [] {
      var n := |objs| - 1;
      ExecutedOncePerDecision(w, objs[..n]);
      var before, d := AfterAll(w, FRESH_PROCESS, objs[..n]), AfterAll(w, FRESH_PROCESS, objs);
      assert d.seen == before.seen + if KeyOf(objs[n]).Some? then {KeyOf(objs[n]).value} else {};
      forall key ensures key in d.seen <==> exists k :: 0 <= k < |objs| && KeyOf(objs[k]) == Some(key) {
        if key in before.seen {
          var k :| 0 <= k < n && KeyOf(objs[..n][k]) == Some(key);
          assert KeyOf(objs[k]) == Some(key);
        }
        if k :| 0 <= k < |objs| && KeyOf(objs[k]) == Some(key) {
          assert k < n ==> KeyOf(objs[..n][k]) == Some(key);
        }
      }
    }
  }

  // The decisions of one run are one decision, as the gate writes it once
  predicate DecidedOnce(objs: seq<Validation>) {
    forall i, j | 0 <= i < |objs| && 0 <= j < |objs| && objs[i].uid == objs[j].uid ::
      KeyOf(objs[i]).Some? && KeyOf(objs[j]).Some? ==> KeyOf(objs[i]) == KeyOf(objs[j])
  }

  // Whatever is replayed, in whatever order the stale and current versions arrive: one execution a run
  lemma ExecutedOncePerRun(w: World, objs: seq<Validation>, i: nat, j: nat)
    requires DecidedOnce(objs)
    requires i < |AfterAll(w, FRESH_PROCESS, objs).executed| && j < |AfterAll(w, FRESH_PROCESS, objs).executed|
    ensures var d := AfterAll(w, FRESH_PROCESS, objs); d.executed[i].0.run == d.executed[j].0.run ==> i == j
  {
    var d := AfterAll(w, FRESH_PROCESS, objs);
    ExecutedOncePerDecision(w, objs);
    var k :| 0 <= k < |objs| && KeyOf(objs[k]) == Some(d.executed[i].0);
    var m :| 0 <= m < |objs| && KeyOf(objs[m]) == Some(d.executed[j].0);
  }

  // The first delivery with a decision decides what is executed for it
  lemma {:induction false} EveryDecisionIsExecuted(w: World, objs: seq<Validation>, k: nat)
    requires k < |objs| && KeyOf(objs[k]).Some? && objs[k].Status().gateDecision.value.action.Some?
    requires forall i | 0 <= i < k :: KeyOf(objs[i]) != KeyOf(objs[k])
    ensures (KeyOf(objs[k]).value, objs[k].Status().gateDecision.value.action.value) in AfterAll(w, FRESH_PROCESS,
      objs).executed
    decreases |objs|
  {
    hide Execute, Rows;
    var n := |objs| - 1;
    if k < n {
      EveryDecisionIsExecuted(w, objs[..n], k);
    } else {
      ExecutedOncePerDecision(w, objs[..n]);
      assert forall i | 0 <= i < n :: KeyOf(objs[..n][i]) == KeyOf(objs[i]);
      assert KeyOf(objs[k]).value !in AfterAll(w, FRESH_PROCESS, objs[..n]).seen;
    }
  }

  // ---- Calls and rows are those of the executed actions, one after the other ----

  function CallsAfter(w: World, executed: seq<(DispatchKey, TypedAction)>): seq<TypedAction> {
    if executed == [] then []
    else var n := |executed| - 1; Execute(w.wiring, CallsAfter(w, executed[..n]), executed[n].1).1
  }

  // The rows of execution n
  function RowsOf(w: World, executed: seq<(DispatchKey, TypedAction)>, n: nat): seq<OutcomeRow>
    requires n < |executed|
  {
    Rows(executed[n].1, Execute(w.wiring, CallsAfter(w, executed[..n]), executed[n].1).0)
  }

  // The rows asked for
  function RowsDue(w: World, executed: seq<(DispatchKey, TypedAction)>): seq<OutcomeRow> {
    if executed == [] then []
    else var n := |executed| - 1; RowsDue(w, executed[..n]) + RowsOf(w, executed, n)
  }

  // The rows that got stored
  function RowsStored(w: World, executed: seq<(DispatchKey, TypedAction)>): seq<OutcomeRow> {
    if executed == [] then []
    else var n := |executed| - 1; RowsStored(w, executed[..n]) + Kept(RowsOf(w, executed, n), StoredOf(w, n))
  }

  lemma {:induction false} OnlyExecutionsLeaveTraces(w: World, objs: seq<Validation>)
    ensures var d := AfterAll(w, FRESH_PROCESS, objs);
            d.calls == CallsAfter(w, d.executed) && d.rows == RowsStored(w, d.executed)
  {
    hide Execute, Rows, Kept;
    if objs != [] {
      var n := |objs| - 1;
      OnlyExecutionsLeaveTraces(w, objs[..n]);
      var before, d := AfterAll(w, FRESH_PROCESS, objs[..n]), AfterAll(w, FRESH_PROCESS, objs);
      if d.executed != before.executed {
        assert d.executed[..|d.executed| - 1] == before.executed;
      }
    }
  }

  // No append of these executions failed
  ghost predicate AllAppended(w: World, executed: seq<(DispatchKey, TypedAction)>) {
    forall i: nat, j: nat | i < |executed| && j < |RowsOf(w, executed, i)| :: w.stored(i, j)
  }

  lemma AppendedSnoc(w: World, executed: seq<(DispatchKey, TypedAction)>)
    requires executed != []
    ensures var n := |executed| - 1;
            AllAppended(w, executed) <==>
              AllAppended(w, executed[..n]) && forall j: nat | j < |RowsOf(w, executed, n)| :: w.stored(n, j)
  {
    hide Rows, Execute;
    var n := |executed| - 1;
    assert forall i: nat | i < n :: executed[..n][..i] == executed[..i];
    assert forall i: nat | i < n :: RowsOf(w, executed[..n], i) == RowsOf(w, executed, i);
  }

  // The stored rows are the rows asked for, in order, less those whose append failed; they are all of them
  // exactly when no append failed
  lemma {:induction false} FailedAppendsAreMissing(w: World, executed: seq<(DispatchKey, TypedAction)>)
    ensures Subsequence(RowsStored(w, executed), RowsDue(w, executed))
    ensures RowsStored(w, executed) == RowsDue(w, executed) <==> AllAppended(w, executed)
  {
    hide RowsOf;
    if executed != [] {
      var n := |executed| - 1;
      FailedAppendsAreMissing(w, executed[..n]);
      AppendedSnoc(w, executed);
      var rows, kept := RowsOf(w, executed, n), Kept(RowsOf(w, executed, n), StoredOf(w, n));
      KeptIsSubsequence(rows, StoredOf(w, n));
      var due, stored := RowsDue(w, executed[..n]), RowsStored(w, executed[..n]);
      SubsequenceConcat(stored, due, kept, rows);
      SameParts(stored, due, kept, rows);
      assert forall j: nat :: StoredOf(w, n)(j) == w.stored(n, j);
      hide Subsequence, Kept, AllAppended;
    }
  }

  // ---- The dispatcher in the whole system ----

  // A process that has seen what the system's dispatcher has seen executes when the system says so
  lemma DeliveryIsTheSystemsStep(cfg: Config, w: World, s: System, d: Process, n: string, obj: Validation)
    requires n in s.c.validations && MayObserve(obj, s.c.validations[n]) && d.seen == s.seen
    ensures var e, t := AfterDelivery(w, d, obj), Next(cfg, s, Deliver(n, obj));
            && e.seen == t.seen
            && |e.executed| - |d.executed| == |t.dispatches| - |s.dispatches|
            && (e.executed == d.executed ==> t.dispatches == s.dispatches)
            && (e.executed != d.executed ==>
                  var last := e.executed[|e.executed| - 1];
                  t.dispatches == s.dispatches + [Dispatch(s.process, last.0, last.1)])
  {
    hide Execute, Rows;
  }

  // A restart forgets: the decision that the last process executed is executed again
  lemma RestartExecutesAgain(cfg: Config, s: System, n: string)
    requires n in s.c.validations
    requires var gate := s.c.validations[n].Status().gateDecision; gate.Some? && gate.value.action.Some?
    ensures var gate := s.c.validations[n].Status().gateDecision.value;
            Next(cfg, Next(cfg, s, RestartDispatcher), Deliver(n, s.c.validations[n])).dispatches ==
            s.dispatches + [Dispatch(s.process + 1, DispatchKey(s.c.validations[n].uid, gate.decidedAt),
              gate.action.value)]
  {
  }

  // ---- How often a run's action is executed over the whole life of the system ----

  function Restarts(steps: seq<Step>): nat {
    if steps == [] then 0
    else Restarts(steps[..|steps| - 1]) + if steps[|steps| - 1].RestartDispatcher? then 1 else 0
  }

  lemma OnlyRestartsChangeTheProcess(cfg: Config, s: System, step: Step)
    ensures Next(cfg, s, step).process == s.process + if step.RestartDispatcher? then 1 else 0
  {
    hide PlanOf, TenantAfter, ScanJobStepped, Receipted, EffectAt, ApplyEffect, EffectCount;
  }

  lemma {:induction false} ProcessCountsRestarts(cfg: Config, steps: seq<Step>)
    ensures Run(cfg, EMPTY_SYSTEM, steps).process == Restarts(steps)
  {
    hide Next;
    if steps != [] {
      ProcessCountsRestarts(cfg, steps[..|steps| - 1]);
      OnlyRestartsChangeTheProcess(cfg, Run(cfg, EMPTY_SYSTEM, steps[..|steps| - 1]), steps[|steps| - 1]);
    }
  }

  // The dispatches of one run
  ghost function OfRun(dispatches: seq<Dispatch>, uid: string): set<nat> {
    set i: nat | i < |dispatches| && dispatches[i].key.run == uid
  }

  // A version that carries the run's decision, with an action, is delivered
  predicate Serves(s: System, step: Step, uid: string) {
    && step.Deliver? && step.n in s.c.validations && MayObserve(step.observed, s.c.validations[step.n])
    && step.observed.uid == uid
    && step.observed.Status().gateDecision.Some? && step.observed.Status().gateDecision.value.action.Some?
  }

  // The dispatcher processes to which such a version was delivered
  function Served(cfg: Config, steps: seq<Step>, uid: string): set<nat> {
    if steps == [] then {}
    else
      var n := |steps| - 1;
      var before := Run(cfg, EMPTY_SYSTEM, steps[..n]);
      Served(cfg, steps[..n], uid) + if Serves(before, steps[n], uid) then {before.process} else {}
  }

  // The decision of a seen key, as stored
  ghost predicate SeenFor(s: System, key: DispatchKey, n: string, served: set<nat>) {
    n in s.c.validations && s.c.validations[n].uid == key.run &&
    var gate := s.c.validations[n].Status().gateDecision;
    gate.Some? && gate.value.decidedAt == key.decidedAt && (gate.value.action.Some? ==> s.process in served)
  }

  // Process p executed the action of this run
  ghost predicate DispatchedBy(dispatches: seq<Dispatch>, uid: string, p: nat) {
    exists i: nat :: i < |dispatches| && dispatches[i].key.run == uid && dispatches[i].process == p
  }

  ghost predicate ServedOk(s: System, served: set<nat>, uid: string) {
    && (forall i: nat | i < |s.dispatches| && s.dispatches[i].key.run == uid :: s.dispatches[i].process in served)
    && (forall p | p in served :: DispatchedBy(s.dispatches, uid, p))
    && (forall key | key in s.seen && key.run == uid :: exists n :: SeenFor(s, key, n, served))
  }

  lemma SeenStays(s: System, t: System, key: DispatchKey, n: string, served: set<nat>, more: set<nat>)
    requires SeenFor(s, key, n, served) && ClusterGrows(s.c, t.c) && t.process == s.process && served <= more
    ensures SeenFor(t, key, n, more)
  {
    assert Grows(s.c.validations[n], t.c.validations[n]);
  }

  // Steps that leave the dispatcher alone
  lemma UnservedStep(s: System, t: System, served: set<nat>, uid: string)
    requires ServedOk(s, served, uid) && ClusterGrows(s.c, t.c)
    requires t.process == s.process && t.seen == s.seen && t.dispatches == s.dispatches
    ensures ServedOk(t, served, uid)
  {
    hide SeenFor, ClusterGrows;
    forall key | key in t.seen && key.run == uid ensures exists n :: SeenFor(t, key, n, served) {
      var n :| SeenFor(s, key, n, served);
      SeenStays(s, t, key, n, served, served);
    }
  }

  lemma DeliveredStep(cfg: Config, s: System, served: set<nat>, uid: string, step: Step)
    requires HistoryOk(s) && ServedOk(s, served, uid) && step.Deliver?
    ensures ServedOk(Next(cfg, s, step), served + if Serves(s, step, uid) then {s.process} else {}, uid)
  {
    hide FlightOk, EventsOk, EventsKnown, DispatchOk, Shape;
    var t := Next(cfg, s, step);
    var more := served + if Serves(s, step, uid) then {s.process} else {};
    var n := step.n;
    var gate := step.observed.Status().gateDecision;
    if n in s.c.validations && MayObserve(step.observed, s.c.validations[n]) && gate.Some? {
      var key := DispatchKey(step.observed.uid, gate.value.decidedAt);
      assert t.c == s.c && t.process == s.process && t.seen == s.seen + {key};
      if key in s.seen && key.run == uid {
        var m :| SeenFor(s, key, m, served);
        assert m == n;
      } else if key.run == uid && gate.value.action.Some? {
        assert t.dispatches[|s.dispatches|] == Dispatch(s.process, key, gate.value.action.value);
      }
      assert key.run == uid ==> SeenFor(t, key, n, more);
    }
    DeliveredKeys(s, t, served, more, uid);
  }

  lemma DeliveredKeys(s: System, t: System, served: set<nat>, more: set<nat>, uid: string)
    requires ServedOk(s, served, uid) && t.c == s.c && t.process == s.process && s.seen <= t.seen && served <= more
    requires |s.dispatches| <= |t.dispatches| && t.dispatches[..|s.dispatches|] == s.dispatches
    requires forall i: nat | |s.dispatches| <= i < |t.dispatches| && t.dispatches[i].key.run == uid ::
               t.dispatches[i].process in more
    requires forall p | p in more && p !in served :: DispatchedBy(t.dispatches, uid, p)
    requires forall key | key in t.seen && key !in s.seen && key.run == uid :: exists n :: SeenFor(t, key, n, more)
    ensures ServedOk(t, more, uid)
  {
    SameClusterGrows(s.c, t.c);
    hide SeenFor, ClusterGrows;
    forall key | key in t.seen && key.run == uid ensures exists n :: SeenFor(t, key, n, more) {
      if key in s.seen {
        var n :| SeenFor(s, key, n, served);
        SeenStays(s, t, key, n, served, more);
      }
    }
    forall i: nat | i < |t.dispatches| && t.dispatches[i].key.run == uid ensures t.dispatches[i].process in more {
      assert i < |s.dispatches| ==> t.dispatches[i] == s.dispatches[i];
    }
    forall p | p in more ensures DispatchedBy(t.dispatches, uid, p) {
      if p in served {
        var i: nat :| i < |s.dispatches| && s.dispatches[i].key.run == uid && s.dispatches[i].process == p;
        assert t.dispatches[i] == s.dispatches[i];
      }
    }
  }

  lemma RestartedStep(cfg: Config, s: System, served: set<nat>, uid: string)
    requires ServedOk(s, served, uid)
    ensures ServedOk(Next(cfg, s, RestartDispatcher), served, uid)
  {
    hide SeenFor;
  }

  lemma OthersLeaveTheDispatcher(cfg: Config, s: System, step: Step)
    requires !step.Deliver? && !step.RestartDispatcher?
    ensures var t := Next(cfg, s, step); t.process == s.process && t.seen == s.seen && t.dispatches == s.dispatches
  {
    hide PlanOf, TenantAfter, ScanJobStepped, Receipted, EffectAt, ApplyEffect, EffectCount, MayObserve;
  }

  lemma StepClusterGrows(cfg: Config, s: System, step: Step)
    requires HistoryOk(s)
    ensures ClusterGrows(s.c, Next(cfg, s, step).c)
  {
    hide HistoryOk, Next, Grows, Edge;
    forall n | n in s.c.validations
      ensures n in Next(cfg, s, step).c.validations && Grows(s.c.validations[n], Next(cfg, s, step).c.validations[n])
    {
      StepFollowsTheChain(cfg, s, step, n);
    }
  }

  lemma {:induction false} ServedHolds(cfg: Config, steps: seq<Step>, uid: string)
    ensures ServedOk(Run(cfg, EMPTY_SYSTEM, steps), Served(cfg, steps, uid), uid)
  {
    if steps != [] {
      var before, step := Run(cfg, EMPTY_SYSTEM, steps[..|steps| - 1]), steps[|steps| - 1];
      HistoryHolds(cfg, steps[..|steps| - 1]);
      ServedHolds(cfg, steps[..|steps| - 1], uid);
      var served := Served(cfg, steps[..|steps| - 1], uid);
      assert !step.Deliver? ==> Served(cfg, steps, uid) == served;
      hide HistoryOk, Next, Serves, ServedOk, ClusterGrows;
      if step.Deliver? {
        DeliveredStep(cfg, before, served, uid, step);
      } else if step.RestartDispatcher? {
        RestartedStep(cfg, before, served, uid);
      } else {
        StepClusterGrows(cfg, before, step);
        OthersLeaveTheDispatcher(cfg, before, step);
        UnservedStep(before, Next(cfg, before, step), served, uid);
      }
    }
  }

  lemma {:induction false} SameSize(s: set<nat>, f: nat -> nat, t: set<nat>)
    requires forall i | i in s :: f(i) in t
    requires forall i, j | i in s && j in s && f(i) == f(j) :: i == j
    requires forall p | p in t :: exists i :: i in s && f(i) == p
    ensures |s| == |t|
  {
    if s != {} {
      var i :| i in s;
      forall p | p in t - {f(i)} ensures exists j :: j in s - {i} && f(j) == p {
        var j :| j in s && f(j) == p;
      }
      SameSize(s - {i}, f, t - {f(i)});
    } else {
      assert t == {};
    }
  }

  // Over every run: a validation's action is executed exactly as often as there were dispatcher processes to which
  // a version carrying the decision was delivered. Hence once at most if and only if one process at most got it.
  lemma ExecutedOncePerServedProcess(cfg: Config, steps: seq<Step>, uid: string)
    ensures |OfRun(Run(cfg, EMPTY_SYSTEM, steps).dispatches, uid)| == |Served(cfg, steps, uid)|
  {
    hide Run, Served, SeenFor;
    ServedHolds(cfg, steps, uid);
    var d := Run(cfg, EMPTY_SYSTEM, steps).dispatches;
    var mine := OfRun(d, uid);
    var processOf: nat -> nat := (i: nat) => if i < |d| then d[i].process else 0;
    forall i, j | i in mine && j in mine && processOf(i) == processOf(j) ensures i == j {
      DispatchedAtMostOncePerProcess(cfg, steps, i, j);
    }
    forall p | p in Served(cfg, steps, uid) ensures exists i :: i in mine && processOf(i) == p {
      var i: nat :| i < |d| && d[i].key.run == uid && d[i].process == p;
      assert i in mine;
    }
    SameSize(mine, processOf, Served(cfg, steps, uid));
  }

  lemma {:induction false} Within(s: set<nat>, n: nat)
    requires forall i | i in s :: i < n
    ensures |s| <= n
  {
    if n == 0 {
      assert s == {};
    } else {
      Within(s - {n - 1}, n - 1);
    }
  }

  lemma ProcessesAreKnown(cfg: Config, steps: seq<Step>, i: nat)
    requires i < |Run(cfg, EMPTY_SYSTEM, steps).dispatches|
    ensures Run(cfg, EMPTY_SYSTEM, steps).dispatches[i].process <= Restarts(steps)
  {
    ProcessCountsRestarts(cfg, steps);
    HistoryHolds(cfg, steps);
    hide Run, FlightOk, EventsOk, EventsKnown, ValidationsOk, DecidedBy;
  }

  // In particular once at most, and once more at most for each restart of the dispatcher
  lemma ExecutedOncePerRestart(cfg: Config, steps: seq<Step>, uid: string)
    ensures |OfRun(Run(cfg, EMPTY_SYSTEM, steps).dispatches, uid)| <= 1 + Restarts(steps)
  {
    hide Run, Restarts, Served, SeenFor;
    ExecutedOncePerServedProcess(cfg, steps, uid);
    ServedHolds(cfg, steps, uid);
    forall p | p in Served(cfg, steps, uid) ensures p < 1 + Restarts(steps) {
      var d := Run(cfg, EMPTY_SYSTEM, steps).dispatches;
      var i: nat :| i < |d| && d[i].key.run == uid && d[i].process == p;
      ProcessesAreKnown(cfg, steps, i);
    }
    Within(Served(cfg, steps, uid), 1 + Restarts(steps));
  }
}
