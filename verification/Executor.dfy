/** The ActionExecutor over arbitrary leaf executors, and the audit rows its outcomes leave behind. */
module Executor {
  import opened Wrappers
  import opened MergePatch
  import opened Actions
  import opened Subsequences

  datatype ReconcilerError = InvalidSpec | SubstrateRefused | Internal | Transient

  datatype ActionReceipt = LeafReceipt(json: Json) | ComposeReceipt(steps: seq<Outcome>)

  datatype Outcome =
    | Applied(receipt: ActionReceipt)
    | AlreadyConverged
    | FlagGated(flag: string)
    | Failed(error: ReconcilerError)
  {
    // A flag-gated refusal counts as a success: the sequence goes on
    predicate IsTerminalSuccess() { !Failed? }
  }

  // What is wired at boot, and how the foreign executors answer. The answer may depend on
  // everything called before, so any stateful executor is covered.
  datatype Wiring = Wiring(
    registered: set<ReconcilerKind>, fluxCommit: bool, answer: (seq<TypedAction>, TypedAction) -> Outcome)

  // ---- Specs ----

  datatype FieldType = TextField | FlagField | AnyField | TransitionField

  // A transition is tagged by its kind; all but an admission name an artifact
  function TransitionFields(kind: string): Option<seq<(string, FieldType)>> {
    if kind == "admit" then Some([("body", AnyField)])
    else if kind in {"revoke", "quarantine", "reactivate", "supersede"}
    then Some([("artifact_id", TextField), ("body", AnyField)])
    else None
  }

  function SpecFields(kind: ReconcilerKind): Option<seq<(string, FieldType)>> {
    match kind
    case CartorioAdmit => Some([("transition", TransitionField)])
    case GhcrTagRevoke => Some([("repository", TextField), ("reference", TextField)])
    case HarborMirror =>
      Some([("source_repo", TextField), ("source_digest", TextField), ("target_project", TextField),
            ("preserve_digest", FlagField), ("flag_enabled", FlagField)])
    case _ => None
  }

  predicate PlainFits(j: Json, t: FieldType) {
    match t
    case TextField => j.Str?
    case FlagField => j.Bool?
    case AnyField => true
    case TransitionField => TransitionFits(j)
  }

  // The variant's fields beside the tag, by name or by position
  predicate TransitionFits(j: Json) {
    match j
    case Obj(members) =>
      "kind" in members && members["kind"].Str? && TransitionFields(members["kind"].s).Some? &&
      forall f | f in TransitionFields(members["kind"].s).value :: f.0 in members &&
        (f.1.TextField? ==> members[f.0].Str?)
    case Arr(items) =>
      items != [] && items[0].Str? && TransitionFields(items[0].s).Some? &&
      var fields := TransitionFields(items[0].s).value;
      |items| == |fields| + 1 && forall i | 0 <= i < |fields| :: fields[i].1.TextField? ==> items[i + 1].Str?
    case _ => false
  }

  // A spec deserialises: every field is there, by name or by position, and of its type; other names are
  // ignored. Kinds whose spec is not in the repository take any.
  predicate SpecFits(kind: ReconcilerKind, spec: Json) {
    var fields := SpecFields(kind);
    fields.None? ||
    match spec
    case Obj(members) => forall f | f in fields.value :: f.0 in members && PlainFits(members[f.0], f.1)
    case Arr(items) => |items| == |fields.value| &&
      forall i | 0 <= i < |items| :: PlainFits(items[i], fields.value[i].1)
    case _ => false
  }

  // ---- Execution ----

  // The leaves that reach a foreign executor: a handler is asked only for a spec that deserialises
  predicate Foreign(w: Wiring, a: TypedAction) {
    match a
    case ReconcilerApply(kind, spec) => kind in w.registered && SpecFits(kind, spec)
    case FluxCommit(_, _) => w.fluxCommit
    case _ => false
  }

  function LocalAnswer(w: Wiring, a: TypedAction): Outcome {
    match a
    case ReconcilerApply(kind, _) => if kind in w.registered then Failed(InvalidSpec) else Failed(Internal)
    case Noop => AlreadyConverged
    case FluxCommit(_, _) => Failed(SubstrateRefused)
    case Custom(_) => Failed(InvalidSpec)
    case _ => Failed(Internal)
  }

  // The outcome of one action and the foreign calls made by then
  function Execute(w: Wiring, calls: seq<TypedAction>, a: TypedAction): (Outcome, seq<TypedAction>)
    decreases a
  {
    if a.Compose? then
      var (receipts, after) := RunSteps(w, calls, a.steps);
      (Applied(ComposeReceipt(receipts)), after)
    else if Foreign(w, a) then (w.answer(calls, a), calls + [a])
    else (LocalAnswer(w, a), calls)
  }

  function RunSteps(w: Wiring, calls: seq<TypedAction>, steps: seq<TypedAction>): (seq<Outcome>, seq<TypedAction>)
    decreases steps
  {
    if steps == [] then ([], calls)
    else
      var (outcome, after) := Execute(w, calls, steps[0]);
      if !outcome.IsTerminalSuccess() then ([outcome], after)
      else
        var (rest, end) := RunSteps(w, after, steps[1..]);
        ([outcome] + rest, end)
  }

  class ActionExecutor {
    const wiring: Wiring
    var calls: seq<TypedAction>

    constructor (wiring: Wiring)
      ensures this.wiring == wiring && calls == []
    {
      this.wiring := wiring;
      calls := [];
    }

    // ReconcilerEngine::dispatch
    method Dispatch(a: TypedAction) returns (r: Outcome)
      modifies this`calls
      ensures a.ReconcilerApply? ==> (r, calls) == Execute(wiring, old(calls), a)
      ensures !a.ReconcilerApply? ==> r == Failed(Internal) && calls == old(calls)
    {
      if !a.ReconcilerApply? { return Failed(Internal); }
      if a.reconciler !in wiring.registered { return Failed(Internal); }
      if !SpecFits(a.reconciler, a.spec) { return Failed(InvalidSpec); }
      r := wiring.answer(calls, a);
      calls := calls + [a];
    }

    method Run(a: TypedAction) returns (r: Outcome)
      modifies this`calls
      ensures (r, calls) == Execute(wiring, old(calls), a)
      decreases a
    {
      match a
      case ReconcilerApply(_, _) =>
        r := Dispatch(a);
      case Noop =>
        r := AlreadyConverged;
      case Compose(steps) =>
        var receipts: seq<Outcome> := [];
        ghost var start := calls;
        var i := 0;
        assert steps[0..] == steps;
        while i < |steps|
          invariant 0 <= i <= |steps|
          invariant RunSteps(wiring, start, steps).0 == receipts + RunSteps(wiring, calls, steps[i..]).0
          invariant RunSteps(wiring, start, steps).1 == RunSteps(wiring, calls, steps[i..]).1
        {
          assert steps[i..][0] == steps[i] && steps[i..][1..] == steps[i + 1..];
          var outcome := Run(steps[i]);
          receipts := receipts + [outcome];
          i := i + 1;
          if !outcome.IsTerminalSuccess() {
            assert RunSteps(wiring, start, steps) == (receipts, calls);
            break;
          }
        }
        assert i == |steps| ==> RunSteps(wiring, calls, steps[i..]).0 == [] && receipts + [] == receipts;
        assert RunSteps(wiring, start, steps) == (receipts, calls);
        r := Applied(ComposeReceipt(receipts));
      case FluxCommit(_, _) =>
        if !wiring.fluxCommit { return Failed(SubstrateRefused); }
        r := wiring.answer(calls, a);
        calls := calls + [a];
      case Custom(_) =>
        r := Failed(InvalidSpec);
      case _ =>
        r := Failed(Internal);
    }
  }

  // ---- Compose ----

  // The foreign calls made before step i of a sequence that is not cut short
  function CallsBefore(w: Wiring, calls: seq<TypedAction>, steps: seq<TypedAction>, i: nat): seq<TypedAction>
    requires i <= |steps|
  {
    if i == 0 then calls else Execute(w, CallsBefore(w, calls, steps, i - 1), steps[i - 1]).1
  }

  lemma {:induction false} CallsBeforeShift(w: Wiring, calls: seq<TypedAction>, steps: seq<TypedAction>, i: nat)
    requires i < |steps|
    ensures CallsBefore(w, calls, steps, i + 1) == CallsBefore(w, Execute(w, calls, steps[0]).1, steps[1..], i)
  {
    if i > 0 {
      CallsBeforeShift(w, calls, steps, i - 1);
      assert steps[1..][i - 1] == steps[i];
    } else {
      assert CallsBefore(w, calls, steps, 0) == calls;
    }
  }

  // The receipts are for a prefix of the steps, run one after the other. Each but the last succeeded;
  // the prefix is proper only when the last failed, and a nested Compose is never that last step.
  lemma {:induction false} ComposeRunsAPrefix(w: Wiring, calls: seq<TypedAction>, steps: seq<TypedAction>)
    ensures var (rs, end) := RunSteps(w, calls, steps);
            && |rs| <= |steps|
            && (steps != [] ==> rs != [])
            && end == CallsBefore(w, calls, steps, |rs|)
            && (forall i | 0 <= i < |rs| :: rs[i] == Execute(w, CallsBefore(w, calls, steps, i), steps[i]).0)
            && (forall i | 0 <= i < |rs| - 1 :: rs[i].IsTerminalSuccess())
            && (|rs| < |steps| ==> rs[|rs| - 1].Failed? && !steps[|rs| - 1].Compose? && !steps[|rs| - 1].Noop?)
    decreases |steps|
  {
    if steps != [] {
      var (outcome, after) := Execute(w, calls, steps[0]);
      FirstStep(w, calls, steps);
      if outcome.IsTerminalSuccess() {
        ComposeRunsAPrefix(w, after, steps[1..]);
        hide RunSteps, Execute, CallsBefore;
        var rest := RunSteps(w, after, steps[1..]).0;
        var rs := RunSteps(w, calls, steps).0;
        CallsBeforeShift(w, calls, steps, |rest|);
        forall i | 0 <= i < |rs|
          ensures rs[i] == Execute(w, CallsBefore(w, calls, steps, i), steps[i]).0
        {
          if i > 0 {
            CallsBeforeShift(w, calls, steps, i - 1);
            assert rest[i - 1] == rs[i] && steps[1..][i - 1] == steps[i];
          }
        }
        forall i | 0 <= i < |rs| - 1 ensures rs[i].IsTerminalSuccess() {
          assert i > 0 ==> rs[i] == rest[i - 1];
        }
      }
    }
  }

  lemma FirstStep(w: Wiring, calls: seq<TypedAction>, steps: seq<TypedAction>)
    requires steps != []
    ensures var (outcome, after) := Execute(w, calls, steps[0]);
            && CallsBefore(w, calls, steps, 0) == calls && CallsBefore(w, calls, steps, 1) == after
            && (steps[0].Compose? || steps[0].Noop? ==> outcome.IsTerminalSuccess())
            && if outcome.IsTerminalSuccess() then
                 var (rest, end) := RunSteps(w, after, steps[1..]);
                 RunSteps(w, calls, steps) == ([outcome] + rest, end)
               else RunSteps(w, calls, steps) == ([outcome], after)
  {
    assert CallsBefore(w, calls, steps, 0) == calls;
  }

  // ---- Which leaves are done and which refused ----

  // A foreign executor is wired for the leaf, and it answers with a success
  predicate Answered(w: Wiring, calls: seq<TypedAction>, a: TypedAction) {
    && ((a.ReconcilerApply? && a.reconciler in w.registered && SpecFits(a.reconciler, a.spec)) ||
      (a.FluxCommit? && w.fluxCommit))
    && !w.answer(calls, a).Failed?
  }

  // A leaf succeeds exactly when there is nothing to do or its foreign executor says so; what nobody is wired
  // for is refused, each kind with its own error, and a refused leaf calls nobody
  lemma LeafOutcomes(w: Wiring, calls: seq<TypedAction>, a: TypedAction)
    requires !a.Compose?
    ensures var (outcome, after) := Execute(w, calls, a);
            && (outcome.IsTerminalSuccess() <==> a.Noop? || Answered(w, calls, a))
            && (outcome.Failed? <==> !outcome.IsTerminalSuccess())
            && (a.Noop? ==> outcome == AlreadyConverged)
            && (Answered(w, calls, a) ==> outcome == w.answer(calls, a) && after == calls + [a])
            && (a.FluxCommit? && !w.fluxCommit ==> outcome == Failed(SubstrateRefused) && after == calls)
            && (a.ReconcilerApply? && a.reconciler !in w.registered ==> outcome == Failed(Internal) && after == calls)
            && (a.ReconcilerApply? && a.reconciler in w.registered && !SpecFits(a.reconciler, a.spec) ==>
                  outcome == Failed(InvalidSpec) && after == calls)
            && (a.Custom? ==> outcome == Failed(InvalidSpec) && after == calls)
            && (a.MagmaApply? || a.CofreRotate? || a.CrachaPatch? ==> outcome == Failed(Internal) && after == calls)
  {
    hide SpecFits;
  }

  // A step lets the sequence go on
  predicate Passes(w: Wiring, calls: seq<TypedAction>, a: TypedAction) {
    a.Compose? || a.Noop? || Answered(w, calls, a)
  }

  // A Compose goes past its step i exactly when every step so far is a Compose, a Noop, or a foreign leaf that
  // was answered with a success
  lemma ComposeGoesPast(w: Wiring, calls: seq<TypedAction>, steps: seq<TypedAction>, i: nat)
    requires i + 1 < |steps|
    ensures |RunSteps(w, calls, steps).0| > i + 1 <==>
            forall j | 0 <= j <= i :: Passes(w, CallsBefore(w, calls, steps, j), steps[j])
  {
    hide RunSteps, Answered, CallsBefore;
    ComposeRunsAPrefix(w, calls, steps);
    var rs := RunSteps(w, calls, steps).0;
    forall j | 0 <= j < |rs|
      ensures rs[j].IsTerminalSuccess() <==> Passes(w, CallsBefore(w, calls, steps, j), steps[j])
    {
      if !steps[j].Compose? { LeafOutcomes(w, CallsBefore(w, calls, steps, j), steps[j]); }
    }
  }

  // ---- The foreign calls of a whole action tree ----

  function Leaves(a: TypedAction): seq<TypedAction>
    decreases a
  {
    if a.Compose? then LeavesOf(a.steps) else [a]
  }

  function LeavesOf(steps: seq<TypedAction>): seq<TypedAction>
    decreases steps
  {
    if steps == [] then [] else Leaves(steps[0]) + LeavesOf(steps[1..])
  }

  function Calls(w: Wiring, leaves: seq<TypedAction>): seq<TypedAction> {
    if leaves == [] then []
    else (if Foreign(w, leaves[0]) then [leaves[0]] else []) + Calls(w, leaves[1..])
  }

  lemma {:induction false} CallsConcat(w: Wiring, a: seq<TypedAction>, b: seq<TypedAction>)
    ensures Calls(w, a + b) == Calls(w, a) + Calls(w, b)
  {
    if a == [] {
      assert a + b == b;
    } else {
      assert (a + b)[1..] == a[1..] + b;
      CallsConcat(w, a[1..], b);
    }
  }

  // Foreign calls are only ever appended, in the order of the tree's leaves, each leaf at most once
  lemma {:induction false} CallsFollowTheTree(w: Wiring, calls: seq<TypedAction>, a: TypedAction)
    ensures var after := Execute(w, calls, a).1;
            |calls| <= |after| && after[..|calls|] == calls && Subsequence(after[|calls|..], Calls(w, Leaves(a)))
    decreases a
  {
    if a.Compose? {
      StepCallsFollowTheTree(w, calls, a.steps);
    } else {
      assert [a][1..] == [];
      var after := Execute(w, calls, a).1;
      assert Subsequence<TypedAction>([], []);
      if Foreign(w, a) {
        assert after[|calls|..] == [a];
        assert Calls(w, [a]) == [a];
        assert [a][1..] == [];
      }
    }
  }

  lemma {:induction false} StepCallsFollowTheTree(w: Wiring, calls: seq<TypedAction>, steps: seq<TypedAction>)
    ensures var after := RunSteps(w, calls, steps).1;
            |calls| <= |after| && after[..|calls|] == calls && Subsequence(after[|calls|..], Calls(w, LeavesOf(steps)))
    decreases steps
  {
    if steps != [] {
      var (outcome, mid) := Execute(w, calls, steps[0]);
      CallsFollowTheTree(w, calls, steps[0]);
      CallsConcat(w, Leaves(steps[0]), LeavesOf(steps[1..]));
      var rest := Calls(w, LeavesOf(steps[1..]));
      var first := mid[|calls|..];
      if outcome.IsTerminalSuccess() {
        StepCallsFollowTheTree(w, mid, steps[1..]);
        var end := RunSteps(w, mid, steps[1..]).1;
        SubsequenceConcat(first, Calls(w, Leaves(steps[0])), end[|mid|..], rest);
        assert end[|calls|..] == first + end[|mid|..];
        assert end[..|calls|] == end[..|mid|][..|calls|];
      } else {
        SubsequenceConcat(first, Calls(w, Leaves(steps[0])), [], rest);
        assert first + [] == first;
      }
    }
  }

  // The leaves of the steps that left no receipt
  function Skipped(a: TypedAction, o: Outcome): seq<TypedAction>
    decreases a
  {
    if !a.Compose? then []
    else if o.Applied? && o.receipt.ComposeReceipt? then SkippedIn(a.steps, o.receipt.steps)
    else LeavesOf(a.steps)
  }

  function SkippedIn(steps: seq<TypedAction>, receipts: seq<Outcome>): seq<TypedAction>
    decreases steps
  {
    if steps == [] then []
    else if receipts == [] then LeavesOf(steps)
    else Skipped(steps[0], receipts[0]) + SkippedIn(steps[1..], receipts[1..])
  }

  predicate NoneFailed(a: TypedAction, o: Outcome)
    decreases a
  {
    if !a.Compose? then !o.Failed?
    else o.Applied? && o.receipt.ComposeReceipt? && NoneFailedIn(a.steps, o.receipt.steps)
  }

  predicate NoneFailedIn(steps: seq<TypedAction>, receipts: seq<Outcome>)
    decreases steps
  {
    steps == [] || receipts == [] || (NoneFailed(steps[0], receipts[0]) && NoneFailedIn(steps[1..], receipts[1..]))
  }

  // Every foreign leaf is called or skipped
  lemma {:induction false} CalledOrSkipped(w: Wiring, calls: seq<TypedAction>, a: TypedAction)
    ensures var (o, after) := Execute(w, calls, a);
            && |after| - |calls| + |Calls(w, Skipped(a, o))| == |Calls(w, Leaves(a))|
            && (NoneFailed(a, o) ==> Skipped(a, o) == [])
    decreases a
  {
    if a.Compose? {
      StepsCalledOrSkipped(w, calls, a.steps);
    } else {
      assert [a][1..] == [] && Calls(w, []) == [];
      assert Calls(w, [a]) == if Foreign(w, a) then [a] else [];
    }
  }

  lemma CallOfLeaf(w: Wiring, calls: seq<TypedAction>, a: TypedAction)
    requires !a.Compose?
    ensures |Execute(w, calls, a).1| - |calls| == |Calls(w, Leaves(a))|
  {
    assert [a][1..] == [] && Calls(w, []) == [];
  }

  lemma {:induction false} StepsCalledOrSkipped(w: Wiring, calls: seq<TypedAction>, steps: seq<TypedAction>)
    ensures var (rs, after) := RunSteps(w, calls, steps);
            && |after| - |calls| + |Calls(w, SkippedIn(steps, rs))| == |Calls(w, LeavesOf(steps))|
            && (NoneFailedIn(steps, rs) ==> SkippedIn(steps, rs) == [])
    decreases steps
  {
    if steps != [] {
      var (outcome, mid) := Execute(w, calls, steps[0]);
      var rs := RunSteps(w, calls, steps).0;
      CalledOrSkipped(w, calls, steps[0]);
      CallsConcat(w, Leaves(steps[0]), LeavesOf(steps[1..]));
      CallsConcat(w, Skipped(steps[0], outcome), SkippedIn(steps[1..], rs[1..]));
      if outcome.IsTerminalSuccess() {
        StepsCalledOrSkipped(w, mid, steps[1..]);
        assert rs[1..] == RunSteps(w, mid, steps[1..]).0;
      } else {
        assert rs[1..] == [] && !steps[0].Compose?;
        assert SkippedIn(steps, rs) == [] + LeavesOf(steps[1..]) by {
          assert SkippedIn(steps[1..], []) == LeavesOf(steps[1..]);
        }
        assert SkippedIn(steps, rs) == LeavesOf(steps[1..]);
        CallOfLeaf(w, calls, steps[0]);
        assert rs == [outcome] && !NoneFailed(steps[0], outcome);
      }
    }
  }

  // Every foreign leaf is called, exactly in tree order, if and only if no step that reaches one was cut off;
  // where no receipt of this run failed, none was
  lemma NothingIsSkipped(w: Wiring, calls: seq<TypedAction>, a: TypedAction)
    ensures var (o, after) := Execute(w, calls, a);
            && (after == calls + Calls(w, Leaves(a)) <==> Calls(w, Skipped(a, o)) == [])
            && (NoneFailed(a, o) ==> after == calls + Calls(w, Leaves(a)))
  {
    var after := Execute(w, calls, a).1;
    CallsFollowTheTree(w, calls, a);
    CalledOrSkipped(w, calls, a);
    SubsequenceSize(after[|calls|..], Calls(w, Leaves(a)));
    assert after == calls + after[|calls|..];
    assert after == calls + Calls(w, Leaves(a)) ==> after[|calls|..] == Calls(w, Leaves(a));
  }

  // ---- Audit rows ----

  datatype OutcomeRow = OutcomeRow(
    actionKind: string, reconcilerKind: Option<ReconcilerKind>, action: TypedAction,
    outcome: string, flag: Option<string>, receipt: Option<ActionReceipt>, error: Option<ReconcilerError>)

  function ActionLabel(a: TypedAction): string {
    match a
    case FluxCommit(_, _) => "FluxCommit"
    case ReconcilerApply(_, _) => "ReconcilerApply"
    case MagmaApply => "MagmaApply"
    case CofreRotate => "CofreRotate"
    case CrachaPatch => "CrachaPatch"
    case Custom(_) => "Custom"
    case Compose(_) => "Compose"
    case Noop => "Noop"
  }

  function RowOf(a: TypedAction, o: Outcome): OutcomeRow {
    var kind := if a.ReconcilerApply? then Some(a.reconciler) else None;
    match o
    case Applied(receipt) => OutcomeRow(ActionLabel(a), kind, a, "applied", None, Some(receipt), None)
    case AlreadyConverged => OutcomeRow(ActionLabel(a), kind, a, "already-converged", None, None, None)
    case FlagGated(flag) => OutcomeRow(ActionLabel(a), kind, a, "flag-gated", Some(flag), None, None)
    case Failed(error) => OutcomeRow(ActionLabel(a), kind, a, "failed", None, None, Some(error))
  }

  // The flattening `persist_outcome` writes: a Compose leaves one row per receipt
  function Rows(a: TypedAction, o: Outcome): seq<OutcomeRow> {
    if a.Compose? && o.Applied? && o.receipt.ComposeReceipt? then
      var rs := o.receipt.steps;
      var n := if |a.steps| <= |rs| then |a.steps| else |rs|;
      seq(n, i requires 0 <= i < n => RowOf(a.steps[i], rs[i]))
    else [RowOf(a, o)]
  }

  // Row by row; an append that fails is logged and the next one tried. `stored` says which succeed.
  method PersistRows(a: TypedAction, o: Outcome, before: seq<OutcomeRow>, stored: nat -> bool)
      returns (rows: seq<OutcomeRow>)
    ensures rows == before + Kept(Rows(a, o), stored)
  {
    rows := before;
    if a.Compose? && o.Applied? && o.receipt.ComposeReceipt? {
      ghost var all := Rows(a, o);
      var i := 0;
      while i < |a.steps| && i < |o.receipt.steps|
        invariant 0 <= i <= |all|
        invariant rows == before + Kept(all[..i], stored)
      {
        var row := RowOf(a.steps[i], o.receipt.steps[i]);
        assert all[..i + 1][..i] == all[..i] && all[..i + 1][i] == row;
        if stored(i) {
          rows := rows + [row];
        }
        i := i + 1;
      }
      assert all[..i] == all;
    } else {
      assert Rows(a, o)[..0] == [] && Kept(Rows(a, o)[..0], stored) == [];
      if stored(0) {
        rows := rows + [RowOf(a, o)];
      }
    }
  }

  // The label of a row names the kind of its action
  predicate KindReads(name: string, a: TypedAction) {
    && (name == "FluxCommit" <==> a.FluxCommit?) && (name == "ReconcilerApply" <==> a.ReconcilerApply?)
    && (name == "MagmaApply" <==> a.MagmaApply?) && (name == "CofreRotate" <==> a.CofreRotate?)
    && (name == "CrachaPatch" <==> a.CrachaPatch?) && (name == "Custom" <==> a.Custom?)
    && (name == "Compose" <==> a.Compose?) && (name == "Noop" <==> a.Noop?)
  }

  lemma LabelsTellKindsApart(a: TypedAction)
    ensures KindReads(ActionLabel(a), a)
  {
    var names := ["FluxCommit", "ReconcilerApply", "MagmaApply", "CofreRotate", "CrachaPatch", "Custom", "Compose",
                  "Noop"];
    assert forall i, j | 0 <= i < j < |names| :: |names[i]| != |names[j]| || names[i][1] != names[j][1];
  }

  // Rows carry the whole pair they were made from
  function RowOutcome(r: OutcomeRow): Option<Outcome> {
    if r.outcome == "applied" && r.receipt.Some? then Some(Applied(r.receipt.value))
    else if r.outcome == "already-converged" then Some(AlreadyConverged)
    else if r.outcome == "flag-gated" && r.flag.Some? then Some(FlagGated(r.flag.value))
    else if r.outcome == "failed" && r.error.Some? then Some(Failed(r.error.value))
    else None
  }

  lemma RowReadsBack(a: TypedAction, o: Outcome)
    ensures RowOf(a, o).action == a && RowOutcome(RowOf(a, o)) == Some(o)
    ensures KindReads(RowOf(a, o).actionKind, a)
    ensures RowOf(a, o).reconcilerKind.Some? <==> a.ReconcilerApply?
    ensures a.ReconcilerApply? ==> RowOf(a, o).reconcilerKind == Some(a.reconciler)
    ensures var r := RowOf(a, o);
            && (r.outcome == "applied" <==> o.Applied?) && (r.outcome == "already-converged" <==> o.AlreadyConverged?)
            && (r.outcome == "flag-gated" <==> o.FlagGated?) && (r.outcome == "failed" <==> o.Failed?)
            && (r.receipt.Some? <==> o.Applied?) && (r.flag.Some? <==> o.FlagGated?) && (r.error.Some? <==> o.Failed?)
  {
    hide ActionLabel;
    LabelsTellKindsApart(a);
  }

  // A dispatched Compose asks for one row per step that ran, row i holding step i and its receipt;
  // any other action asks for one row
  lemma ExecutedRows(w: Wiring, calls: seq<TypedAction>, a: TypedAction)
    ensures var o := Execute(w, calls, a).0;
            var rows := Rows(a, o);
            if a.Compose? then
              && o.Applied? && o.receipt.ComposeReceipt?
              && |rows| == |o.receipt.steps| <= |a.steps|
              && forall i | 0 <= i < |rows| ::
                   rows[i].action == a.steps[i] && RowOutcome(rows[i]) == Some(o.receipt.steps[i])
            else
              |rows| == 1 && rows[0].action == a && RowOutcome(rows[0]) == Some(o)
  {
    var o := Execute(w, calls, a).0;
    if a.Compose? {
      ComposeRunsAPrefix(w, calls, a.steps);
      forall i | 0 <= i < |Rows(a, o)|
        ensures Rows(a, o)[i].action == a.steps[i] && RowOutcome(Rows(a, o)[i]) == Some(o.receipt.steps[i])
      {
        RowReadsBack(a.steps[i], o.receipt.steps[i]);
      }
    } else {
      RowReadsBack(a, o);
    }
  }

  // Of these rows, those whose append succeeded are stored, in order; all of them exactly when no append failed
  lemma StoredRows(w: Wiring, calls: seq<TypedAction>, a: TypedAction, stored: nat -> bool)
    ensures var o := Execute(w, calls, a).0;
            var due := if a.Compose? && o.Applied? && o.receipt.ComposeReceipt? then |o.receipt.steps| else 1;
            && Subsequence(Kept(Rows(a, o), stored), Rows(a, o))
            && |Rows(a, o)| == due
            && (Kept(Rows(a, o), stored) == Rows(a, o) <==> forall i: nat | i < due :: stored(i))
  {
    ExecutedRows(w, calls, a);
    KeptIsSubsequence(Rows(a, Execute(w, calls, a).0), stored);
  }
}
