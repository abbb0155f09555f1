/** `run_flux_commit`: clone, merge the patch into one YAML file, commit,
  push. Git is a remote that may refuse any call. */
module FluxCommit {
  import opened Wrappers
  import opened MergePatch

  datatype Branch = Branch(repoUrl: string, name: string)
  datatype BranchState = BranchState(files: map<string, string>, commits: nat)
  type Remote = map<Branch, BranchState>

  datatype CommitSpec = CommitSpec(branch: Branch, path: string, patch: Json)

  // Which outside call of one act fails
  datatype Faults = Faults(tempdir: bool, clone: bool, write: bool, commit: bool, revParse: bool, push: bool)

  datatype Refusal = SubstrateRefused | Internal
  datatype Outcome = Applied(dryRun: bool) | AlreadyConverged | Failed(error: Refusal)

  // The YAML library, as the pair of conversions the pipeline uses
  datatype Yaml = Yaml(decode: string -> Option<Json>, encode: Json -> Option<string>)

  ghost predicate Lawful(y: Yaml) {
    forall j :: y.encode(j).Some? ==> y.decode(y.encode(j).value) == Some(j)
  }

  predicate HasFile(remote: Remote, b: Branch, path: string) {
    b in remote && path in remote[b].files
  }

  // The document a clone of the remote would read
  function Document(y: Yaml, remote: Remote, b: Branch, path: string): Option<Json> {
    if HasFile(remote, b, path) then y.decode(remote[b].files[path]) else None
  }

  function Pushed(remote: Remote, b: Branch, path: string, text: string): Remote
    requires b in remote
  {
    remote[b := BranchState(remote[b].files[path := text], remote[b].commits + 1)]
  }

  // One act as a function of the remote and of the failures that happen during it
  function ActResult(y: Yaml, dryRun: bool, remote: Remote, s: CommitSpec, f: Faults): (r: (Outcome, Remote)) {
    if f.tempdir then (Failed(Internal), remote)
    else if f.clone || s.branch !in remote || s.path !in remote[s.branch].files then (Failed(SubstrateRefused), remote)
    else
      var original := y.decode(remote[s.branch].files[s.path]);
      if original.None? then (Failed(Internal), remote)
      else
        var patched := Merge(original.value, s.patch);
        if patched == original.value then (AlreadyConverged, remote)
        else if y.encode(patched).None? || f.write then (Failed(Internal), remote)
        else if f.commit then (Failed(SubstrateRefused), remote)
        else if f.revParse then (Failed(Internal), remote)
        else if dryRun then (Applied(true), remote)
        else if f.push then (Failed(SubstrateRefused), remote)
        else (Applied(false), Pushed(remote, s.branch, s.path, y.encode(patched).value))
  }

  class FluxCommitReconciler {
    const dryRun: bool
    const yaml: Yaml
    var remote: Remote

    constructor (dryRun: bool, yaml: Yaml, remote: Remote)
      ensures this.dryRun == dryRun && this.yaml == yaml && this.remote == remote
    {
      this.dryRun, this.yaml, this.remote := dryRun, yaml, remote;
    }

    method Act(s: CommitSpec, f: Faults) returns (outcome: Outcome)
      modifies this`remote
      ensures (outcome, remote) == ActResult(yaml, dryRun, old(remote), s, f)
    {
      if f.tempdir { return Failed(Internal); }
      if f.clone || s.branch !in remote { return Failed(SubstrateRefused); }
      var clone := remote[s.branch];
      if s.path !in clone.files { return Failed(SubstrateRefused); }
      var original := yaml.decode(clone.files[s.path]);
      if original.None? { return Failed(Internal); }

      var patched := new Slot(original.value);
      MergeJson(patched, s.patch);
      if patched.value == original.value { return AlreadyConverged; }

      var text := yaml.encode(patched.value);
      if text.None? || f.write { return Failed(Internal); }
      clone := clone.(files := clone.files[s.path := text.value]);
      if f.commit { return Failed(SubstrateRefused); }
      clone := clone.(commits := clone.commits + 1);
      if f.revParse { return Failed(Internal); }
      if !dryRun {
        if f.push { return Failed(SubstrateRefused); }
        remote := remote[s.branch := clone];
      }
      return Applied(dryRun);
    }
  }

  // ---- One act ----

  // Convergence is decided by the document alone: no failure after the read can hide it
  lemma ConvergedIffSatisfied(y: Yaml, dryRun: bool, remote: Remote, s: CommitSpec, f: Faults)
    ensures ActResult(y, dryRun, remote, s, f).0 == AlreadyConverged <==>
              && !f.tempdir && !f.clone
              && Document(y, remote, s.branch, s.path).Some?
              && Satisfies(Document(y, remote, s.branch, s.path).value, s.patch)
  {
    var d := Document(y, remote, s.branch, s.path);
    if d.Some? {
      MergeFixedPoint(d.value, s.patch);
    }
  }

  // Every answer of an act, by what the clone holds and by which call fails. The document as the clone has it:
  predicate Changes(y: Yaml, remote: Remote, s: CommitSpec) {
    var d := Document(y, remote, s.branch, s.path);
    d.Some? && !Satisfies(d.value, s.patch)
  }

  // Applied exactly when there is something to change, the merge can be written down, and no call fails;
  // otherwise, unless there was nothing to change, refused. A missing file, branch or clone, a refused commit
  // and a refused push are the substrate's; the rest is internal.
  lemma AppliedIffNothingFails(y: Yaml, dryRun: bool, remote: Remote, s: CommitSpec, f: Faults)
    ensures var outcome := ActResult(y, dryRun, remote, s, f).0;
            var text := y.encode(Merge(Document(y, remote, s.branch, s.path).GetOr(Null), s.patch));
            var reached := !f.tempdir && !f.clone && Changes(y, remote, s);
            var written := reached && text.Some? && !f.write;
            && (outcome == Applied(dryRun) <==> written && !f.commit && !f.revParse && (dryRun || !f.push))
            && (outcome.Applied? ==> outcome.dryRun == dryRun)
            && (outcome == Failed(SubstrateRefused) <==>
                  || (!f.tempdir && (f.clone || !HasFile(remote, s.branch, s.path)))
                  || (written && (f.commit || (!f.revParse && !dryRun && f.push))))
            && (outcome == Failed(Internal) <==>
                  || f.tempdir
                  || (!f.clone && HasFile(remote, s.branch, s.path) && Document(y, remote, s.branch, s.path).None?)
                  || (reached && (text.None? || f.write))
                  || (written && !f.commit && f.revParse))
  {
    var d := Document(y, remote, s.branch, s.path);
    if d.Some? {
      MergeFixedPoint(d.value, s.patch);
    }
  }

  // An applied act with pushing on leaves one more commit, the merge in the one file, and nothing else changed
  predicate CommitsTheMerge(y: Yaml, remote: Remote, s: CommitSpec, after: Remote) {
    && HasFile(remote, s.branch, s.path) && after.Keys == remote.Keys
    && (forall b | b in remote && b != s.branch :: after[b] == remote[b])
    && after[s.branch].commits == remote[s.branch].commits + 1
    && after[s.branch].files.Keys == remote[s.branch].files.Keys
    && (forall p | p in remote[s.branch].files && p != s.path :: after[s.branch].files[p] == remote[s.branch].files[p])
    && var d := y.decode(remote[s.branch].files[s.path]);
       d.Some? && Some(after[s.branch].files[s.path]) == y.encode(Merge(d.value, s.patch))
  }

  // The remote changes exactly by applied acts with pushing on, and then by the merge
  lemma OnlyAppliedActsChangeTheRemote(y: Yaml, dryRun: bool, remote: Remote, s: CommitSpec, f: Faults)
    ensures var (outcome, after) := ActResult(y, dryRun, remote, s, f);
            && (outcome == Applied(false) ==> CommitsTheMerge(y, remote, s, after))
            && (outcome != Applied(false) ==> after == remote)
            && (outcome == Applied(false) && Lawful(y) ==>
                  Document(y, after, s.branch, s.path) ==
                  Some(Merge(Document(y, remote, s.branch, s.path).value, s.patch)))
  {
    var (outcome, after) := ActResult(y, dryRun, remote, s, f);
    if outcome == Applied(false) {
      assert s.path in remote[s.branch].files;
      assert after[s.branch].files.Keys == remote[s.branch].files.Keys;
    }
  }

  // What git is asked to commit always differs from what it has: `git commit` never meets an empty change
  lemma CommitIsNeverEmpty(y: Yaml, remote: Remote, s: CommitSpec)
    requires Lawful(y)
    requires HasFile(remote, s.branch, s.path)
    ensures var text := remote[s.branch].files[s.path];
            var d := y.decode(text);
            d.Some? && !Satisfies(d.value, s.patch) ==> y.encode(Merge(d.value, s.patch)) != Some(text)
  {
    var text := remote[s.branch].files[s.path];
    var d := y.decode(text);
    if d.Some? {
      MergeFixedPoint(d.value, s.patch);
      var e := y.encode(Merge(d.value, s.patch));
      assert e.Some? ==> y.decode(e.value) == Some(Merge(d.value, s.patch));
    }
  }

  // ---- Runs of acts ----

  datatype Attempt = Attempt(spec: CommitSpec, faults: Faults)

  function RemoteAfter(y: Yaml, dryRun: bool, remote: Remote, acts: seq<Attempt>): Remote {
    if acts == [] then remote
    else
      var before := RemoteAfter(y, dryRun, remote, acts[..|acts| - 1]);
      var last := acts[|acts| - 1];
      ActResult(y, dryRun, before, last.spec, last.faults).1
  }

  function OutcomeOf(y: Yaml, dryRun: bool, remote: Remote, acts: seq<Attempt>, i: nat): Outcome
    requires i < |acts|
  {
    ActResult(y, dryRun, RemoteAfter(y, dryRun, remote, acts[..i]), acts[i].spec, acts[i].faults).0
  }

  predicate Succeeded(o: Outcome) { !o.Failed? }

  // The document the run's successful acts on this file ask for, in order
  function Asked(y: Yaml, dryRun: bool, remote: Remote, b: Branch, path: string, d: Json, acts: seq<Attempt>): Json {
    if acts == [] then d
    else
      var n := |acts| - 1;
      var before := Asked(y, dryRun, remote, b, path, d, acts[..n]);
      var s := acts[n].spec;
      if s.branch == b && s.path == path && Succeeded(OutcomeOf(y, dryRun, remote, acts, n))
      then Merge(before, s.patch) else before
  }

  // With pushing on, the remote document is the fold of the successful acts, whatever failed in between
  lemma {:induction false} RemoteIsTheFold(y: Yaml, remote: Remote, b: Branch, path: string, d: Json,
      acts: seq<Attempt>)
    requires Lawful(y) && Document(y, remote, b, path) == Some(d)
    ensures Document(y, RemoteAfter(y, false, remote, acts), b, path) == Some(Asked(y, false, remote, b, path, d, acts))
  {
    if acts != [] {
      var n := |acts| - 1;
      RemoteIsTheFold(y, remote, b, path, d, acts[..n]);
      assert acts[..n] == acts[..n][..];
    }
  }

  // ---- Runs in which nothing fails ----

  const NO_FAULTS := Faults(false, false, false, false, false, false)

  // The patches that the acts bring for this file, one merged onto the other
  function AllPatches(b: Branch, path: string, d: Json, acts: seq<Attempt>): Json {
    if acts == [] then d
    else
      var n := |acts| - 1;
      var before := AllPatches(b, path, d, acts[..n]);
      if acts[n].spec.branch == b && acts[n].spec.path == path then Merge(before, acts[n].spec.patch) else before
  }

  // Where no call of an act on this file fails, each of them succeeds and takes effect, whatever goes wrong
  // with acts on other files and branches
  lemma {:induction false} FaultlessActsAllTakeEffect(y: Yaml, remote: Remote, b: Branch, path: string, d: Json,
      acts: seq<Attempt>)
    requires Lawful(y) && (forall j :: y.encode(j).Some?) && Document(y, remote, b, path) == Some(d)
    requires forall a | a in acts && a.spec.branch == b && a.spec.path == path :: a.faults == NO_FAULTS
    ensures Document(y, RemoteAfter(y, false, remote, acts), b, path) == Some(AllPatches(b, path, d, acts))
    ensures forall i | 0 <= i < |acts| && acts[i].spec.branch == b && acts[i].spec.path == path ::
              Succeeded(OutcomeOf(y, false, remote, acts, i))
  {
    if acts != [] {
      var n := |acts| - 1;
      var before := RemoteAfter(y, false, remote, acts[..n]);
      FaultlessActsAllTakeEffect(y, remote, b, path, d, acts[..n]);
      var s, f := acts[n].spec, acts[n].faults;
      AppliedIffNothingFails(y, false, before, s, f);
      OnlyAppliedActsChangeTheRemote(y, false, before, s, f);
      MergeFixedPoint(AllPatches(b, path, d, acts[..n]), s.patch);
      assert acts[n] in acts;
      forall i | 0 <= i < n && acts[i].spec.branch == b && acts[i].spec.path == path
        ensures Succeeded(OutcomeOf(y, false, remote, acts, i))
      {
        assert acts[..i] == acts[..n][..i];
        assert OutcomeOf(y, false, remote, acts[..n], i) == OutcomeOf(y, false, remote, acts, i);
      }
      hide Merge, Satisfies, Lawful, Changes;
    }
  }

  // An act that cannot undo `s`: another file, the same patch, or a patch about other keys
  predicate Respects(s: CommitSpec, t: CommitSpec) {
    t.branch == s.branch && t.path == s.path ==> t.patch == s.patch || Independent(s.patch, t.patch)
  }

  ghost predicate Holds(y: Yaml, remote: Remote, s: CommitSpec) {
    var d := Document(y, remote, s.branch, s.path);
    d.Some? && Satisfies(d.value, s.patch)
  }

  lemma ActKeeps(y: Yaml, remote: Remote, s: CommitSpec, t: CommitSpec, f: Faults)
    requires Lawful(y) && Holds(y, remote, s) && Respects(s, t)
    ensures Holds(y, ActResult(y, false, remote, t, f).1, s)
  {
    if t.branch == s.branch && t.path == s.path {
      var d := Document(y, remote, s.branch, s.path).value;
      MergeFixedPoint(d, t.patch);
      if t.patch != s.patch {
        IndependentMergeKeeps(d, s.patch, t.patch);
      }
    }
  }

  lemma ActEstablishes(y: Yaml, remote: Remote, s: CommitSpec, f: Faults)
    requires Lawful(y) && Succeeded(ActResult(y, false, remote, s, f).0)
    ensures Holds(y, ActResult(y, false, remote, s, f).1, s)
  {
    var d := Document(y, remote, s.branch, s.path).value;
    MergeEstablishes(d, s.patch);
    MergeFixedPoint(d, s.patch);
  }

  // Once a spec has succeeded it is never committed again while only respectful acts intervene
  lemma {:induction false} CommitsAtMostOnce(y: Yaml, remote: Remote, acts: seq<Attempt>, i: nat, j: nat)
    requires Lawful(y) && i < j < |acts|
    requires acts[j].spec == acts[i].spec
    requires Succeeded(OutcomeOf(y, false, remote, acts, i))
    requires forall k | i < k < j :: Respects(acts[i].spec, acts[k].spec)
    ensures !OutcomeOf(y, false, remote, acts, j).Applied?
    ensures !acts[j].faults.tempdir && !acts[j].faults.clone ==>
            OutcomeOf(y, false, remote, acts, j) == AlreadyConverged
  {
    StillHolds(y, remote, acts, i, j);
    ConvergedIffSatisfied(y, false, RemoteAfter(y, false, remote, acts[..j]), acts[j].spec, acts[j].faults);
  }

  lemma {:induction false} StillHolds(y: Yaml, remote: Remote, acts: seq<Attempt>, i: nat, j: nat)
    requires Lawful(y) && i < j <= |acts|
    requires Succeeded(OutcomeOf(y, false, remote, acts, i))
    requires forall k | i < k < j :: Respects(acts[i].spec, acts[k].spec)
    ensures Holds(y, RemoteAfter(y, false, remote, acts[..j]), acts[i].spec)
    decreases j
  {
    var before := RemoteAfter(y, false, remote, acts[..j - 1]);
    assert acts[..j][..j - 1] == acts[..j - 1];
    if i == j - 1 {
      ActEstablishes(y, before, acts[i].spec, acts[i].faults);
    } else {
      StillHolds(y, remote, acts, i, j - 1);
      ActKeeps(y, before, acts[i].spec, acts[j - 1].spec, acts[j - 1].faults);
    }
  }

  // In a dry run nothing reaches the remote, so repeating an act repeats its outcome for ever
  lemma {:induction false} DryRunNeverReachesTheRemote(y: Yaml, remote: Remote, acts: seq<Attempt>)
    ensures RemoteAfter(y, true, remote, acts) == remote
    ensures forall i | 0 <= i < |acts| ::
              OutcomeOf(y, true, remote, acts, i) == ActResult(y, true, remote, acts[i].spec, acts[i].faults).0
  {
    if acts != [] {
      var n := |acts| - 1;
      DryRunNeverReachesTheRemote(y, remote, acts[..n]);
      forall i | 0 <= i < n
        ensures OutcomeOf(y, true, remote, acts, i) == ActResult(y, true, remote, acts[i].spec, acts[i].faults).0
      {
        assert acts[..i] == acts[..n][..i];
        assert OutcomeOf(y, true, remote, acts[..n], i) == OutcomeOf(y, true, remote, acts, i);
      }
    }
  }
}
