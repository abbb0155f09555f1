/** The specs the handlers take: what serialises from one is accepted, and what is accepted reads as one. */
module HandlerSpecs {
  import opened Wrappers
  import opened MergePatch
  import opened Actions
  import opened Executor

  datatype Transition =
    | Admit(body: Json)
    | Revoke(id: string, body: Json)
    | Quarantine(id: string, body: Json)
    | Reactivate(id: string, body: Json)
    | Supersede(id: string, body: Json)

  datatype HandlerSpec =
    | AdmitSpec(transition: Transition)
    | RevokeSpec(repository: string, reference: string)
    | MirrorSpec(sourceRepo: string, sourceDigest: string, targetProject: string, preserve: bool, enabled: bool)
  {
    function Kind(): ReconcilerKind {
      match this
      case AdmitSpec(_) => CartorioAdmit
      case RevokeSpec(_, _) => GhcrTagRevoke
      case MirrorSpec(_, _, _, _, _) => HarborMirror
    }
  }

  // ---- As serde writes them ----

  function IdAndBody(kind: string, id: string, body: Json): Json {
    Obj(map["kind" := Str(kind), "artifact_id" := Str(id), "body" := body])
  }

  function WriteTransition(t: Transition): Json {
    match t
    case Admit(body) => Obj(map["kind" := Str("admit"), "body" := body])
    case Revoke(id, body) => IdAndBody("revoke", id, body)
    case Quarantine(id, body) => IdAndBody("quarantine", id, body)
    case Reactivate(id, body) => IdAndBody("reactivate", id, body)
    case Supersede(id, body) => IdAndBody("supersede", id, body)
  }

  function WriteSpec(s: HandlerSpec): (j: Json)
    ensures j.Obj?
  {
    match s
    case AdmitSpec(t) => Obj(map["transition" := WriteTransition(t)])
    case RevokeSpec(repository, reference) => Obj(map["repository" := Str(repository), "reference" := Str(reference)])
    case MirrorSpec(repo, digest, project, preserve, enabled) =>
      Obj(map["source_repo" := Str(repo), "source_digest" := Str(digest), "target_project" := Str(project),
              "preserve_digest" := Bool(preserve), "flag_enabled" := Bool(enabled)])
  }

  // ---- As serde reads them: fields by name, other names ignored, or all fields by position ----

  function Named(tag: string, id: Json, body: Json): Option<Transition> {
    if tag == "admit" then Some(Admit(body))
    else if !id.Str? then None
    else if tag == "revoke" then Some(Revoke(id.s, body))
    else if tag == "quarantine" then Some(Quarantine(id.s, body))
    else if tag == "reactivate" then Some(Reactivate(id.s, body))
    else if tag == "supersede" then Some(Supersede(id.s, body))
    else None
  }

  function ReadTransition(j: Json): Option<Transition> {
    match j
    case Obj(m) =>
      if "kind" in m && m["kind"].Str? && "body" in m then Named(m["kind"].s, Entry(m, "artifact_id"), m["body"])
      else None
    case Arr(items) =>
      if |items| == 2 && items[0] == Str("admit") then Some(Admit(items[1]))
      else if |items| == 3 && items[0].Str? && items[0].s != "admit" then Named(items[0].s, items[1], items[2])
      else None
    case _ => None
  }

  function TwoTexts(a: Json, b: Json): Option<HandlerSpec> {
    if a.Str? && b.Str? then Some(RevokeSpec(a.s, b.s)) else None
  }

  function ThreeTextsTwoFlags(a: Json, b: Json, c: Json, d: Json, e: Json): Option<HandlerSpec> {
    if a.Str? && b.Str? && c.Str? && d.Bool? && e.Bool? then Some(MirrorSpec(a.s, b.s, c.s, d.b, e.b)) else None
  }

  function Transitioned(j: Json): Option<HandlerSpec> {
    var t := ReadTransition(j);
    if t.Some? then Some(AdmitSpec(t.value)) else None
  }

  function ReadSpec(kind: ReconcilerKind, j: Json): Option<HandlerSpec> {
    match kind
    case CartorioAdmit =>
      if j.Obj? then Transitioned(Entry(j.members, "transition"))
      else if j.Arr? && |j.items| == 1 then Transitioned(j.items[0])
      else None
    case GhcrTagRevoke =>
      if j.Obj? then TwoTexts(Entry(j.members, "repository"), Entry(j.members, "reference"))
      else if j.Arr? && |j.items| == 2 then TwoTexts(j.items[0], j.items[1])
      else None
    case HarborMirror =>
      if j.Obj? then
        ThreeTextsTwoFlags(Entry(j.members, "source_repo"), Entry(j.members, "source_digest"),
                           Entry(j.members, "target_project"), Entry(j.members, "preserve_digest"),
                           Entry(j.members, "flag_enabled"))
      else if j.Arr? && |j.items| == 5 then
        ThreeTextsTwoFlags(j.items[0], j.items[1], j.items[2], j.items[3], j.items[4])
      else None
    case _ => None
  }

  lemma TransitionsReadBack(t: Transition)
    ensures ReadTransition(WriteTransition(t)) == Some(t)
  {
  }

  lemma SpecMembersReadBack(s: HandlerSpec, m: map<string, Json>)
    requires forall k | k in WriteSpec(s).members :: k in m && m[k] == WriteSpec(s).members[k]
    ensures ReadSpec(s.Kind(), Obj(m)) == Some(s)
  {
    hide WriteTransition, ReadTransition;
    var own := WriteSpec(s).members;
    match s
    case AdmitSpec(t) => TransitionsReadBack(t); assert "transition" in own;
    case RevokeSpec(_, _) => assert "repository" in own && "reference" in own;
    case MirrorSpec(_, _, _, _, _) =>
      assert "source_repo" in own && "source_digest" in own && "target_project" in own;
      assert "preserve_digest" in own && "flag_enabled" in own;
  }

  // What serialises from a spec reads as that spec, other members beside it or not
  lemma SpecsReadBack(s: HandlerSpec, more: map<string, Json>)
    requires forall k | k in more :: k !in WriteSpec(s).members
    ensures ReadSpec(s.Kind(), Obj(WriteSpec(s).members + more)) == Some(s)
  {
    hide WriteSpec, ReadSpec;
    SpecMembersReadBack(s, WriteSpec(s).members + more);
  }

  lemma TransitionsFitIffRead(j: Json)
    ensures TransitionFits(j) <==> ReadTransition(j).Some?
  {
    if j.Obj? && "kind" in j.members && j.members["kind"].Str? {
      var fields := TransitionFields(j.members["kind"].s);
      if fields.Some? {
        assert ("body", AnyField) in fields.value;
        if j.members["kind"].s != "admit" {
          assert ("artifact_id", TextField) in fields.value;
        }
      }
    } else if j.Arr? && j.items != [] && j.items[0].Str? {
      var fields := TransitionFields(j.items[0].s);
      if fields.Some? && |j.items| == |fields.value| + 1 && j.items[0].s != "admit" {
        assert fields.value[0] == ("artifact_id", TextField) && fields.value[1] == ("body", AnyField);
      }
    }
  }

  predicate HasSpecStruct(kind: ReconcilerKind) {
    kind == CartorioAdmit || kind == GhcrTagRevoke || kind == HarborMirror
  }

  // A handler is reached exactly with the specs that read as its own
  lemma FitsIffReads(kind: ReconcilerKind, j: Json)
    requires HasSpecStruct(kind)
    ensures SpecFits(kind, j) <==> ReadSpec(kind, j).Some?
  {
    var fields := SpecFields(kind).value;
    match kind
    case CartorioAdmit =>
      hide TransitionFits, ReadTransition;
      assert fields[0] == ("transition", TransitionField);
      if j.Obj? { TransitionsFitIffRead(Entry(j.members, "transition")); NullIsNoTransition(); }
      if j.Arr? && |j.items| == 1 { TransitionsFitIffRead(j.items[0]); }
    case GhcrTagRevoke =>
      assert fields[0] == ("repository", TextField) && fields[1] == ("reference", TextField);
    case HarborMirror =>
      assert fields[0] == ("source_repo", TextField) && fields[1] == ("source_digest", TextField);
      assert fields[2] == ("target_project", TextField) && fields[3] == ("preserve_digest", FlagField);
      assert fields[4] == ("flag_enabled", FlagField);
  }

  lemma NullIsNoTransition()
    ensures ReadTransition(Null).None?
  {
  }

  // Hence a handler that is registered is asked for whatever serialises from a spec of its kind
  lemma WrittenSpecsReachTheirHandler(w: Wiring, calls: seq<TypedAction>, s: HandlerSpec)
    requires s.Kind() in w.registered
    ensures var a := ReconcilerApply(s.Kind(), WriteSpec(s));
            Execute(w, calls, a) == (w.answer(calls, a), calls + [a])
  {
    SpecsReadBack(s, map[]);
    assert WriteSpec(s).members + map[] == WriteSpec(s).members;
    FitsIffReads(s.Kind(), WriteSpec(s));
    hide SpecFits, WriteSpec, ReadSpec;
  }
}
