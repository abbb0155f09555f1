/** Typed actions: what a decision asks the executor to do. The type itself lives in another repository;
    this is the shape its uses here require. */
module Actions {
  import opened MergePatch

  datatype ReconcilerKind =
    | CartorioAdmit | GhcrTagRevoke | HarborMirror
    | CosignAttest | SbomGenerate | SlsaProvenance | RenovateBaseImageBump

  datatype TypedAction =
    | FluxCommit(path: string, patch: Json)
    | ReconcilerApply(reconciler: ReconcilerKind, spec: Json)
    | MagmaApply
    | CofreRotate
    | CrachaPatch
    | Custom(kind: string)
    | Compose(steps: seq<TypedAction>)
    | Noop

  datatype Decision =
    | NoAction
    | AutoCorrect(action: TypedAction)
    | RequireApproval(action: TypedAction)
    | Alert
    | SuppressedAfterRepeatedFailure(failureCount: nat)
}
