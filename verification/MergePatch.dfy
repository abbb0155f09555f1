/** JSON values and the merge patch of section 2 of RFC 7396, as `merge_json` applies it in place. */
module MergePatch {
  // Objects are maps: serde_json compares objects without regard to member order.
  datatype Json =
    | Null
    | Bool(b: bool)
    | Num(n: int)
    | Str(s: string)
    | Arr(items: seq<Json>)
    | Obj(members: map<string, Json>)

  // The members a patch object is merged into: a target that is not an object counts as {}
  function Members(t: Json): map<string, Json> {
    if t.Obj? then t.members else map[]
  }

  // The entry a recursive merge starts from: an absent member counts as null
  function Entry(m: map<string, Json>, k: string): Json {
    if k in m then m[k] else Null
  }

  function Merge(t: Json, p: Json): (r: Json)
    ensures p.Obj? <==> r.Obj?
    decreases p
  {
    if !p.Obj? then p
    else
      var base := Members(t);
      Obj(map k | k in base.Keys + p.members.Keys && (k in p.members ==> !p.members[k].Null?) ::
            if k in p.members then Merge(Entry(base, k), p.members[k]) else base[k])
  }

  // A target already meets a patch: null asks for absence, an object recurses, anything else asks for equality
  predicate Satisfies(t: Json, p: Json)
    decreases p
  {
    if !p.Obj? then t == p
    else
      && t.Obj?
      && forall k | k in p.members ::
           if p.members[k].Null? then k !in t.members
           else k in t.members && Satisfies(t.members[k], p.members[k])
  }

  // ---- In place ----

  // The place a mutable reference to a JSON value points to
  class Slot {
    var value: Json

    constructor (v: Json)
      ensures value == v
    {
      value := v;
    }
  }

  // Key order is left open: each round takes any key of the patch not visited yet.
  method MergeJson(target: Slot, patch: Json)
    modifies target
    ensures target.value == Merge(old(target.value), patch)
    decreases patch
  {
    if !patch.Obj? {
      target.value := patch;
      return;
    }
    if !target.value.Obj? {
      target.value := Obj(map[]);
    }
    ghost var base := target.value.members;
    var todo := patch.members.Keys;
    while todo != {}
      invariant todo <= patch.members.Keys
      invariant target.value.Obj?
      invariant MergedOutside(base, patch.members, todo, target.value.members)
      decreases |todo|
    {
      var k :| k in todo;
      var v := patch.members[k];
      ghost var before := target.value.members;
      if v.Null? {
        target.value := Obj(target.value.members - {k});
      } else {
        var entry := new Slot(Entry(target.value.members, k));
        MergeJson(entry, v);
        target.value := Obj(target.value.members[k := entry.value]);
      }
      MergeOneKey(base, patch.members, todo, k, before, target.value.members);
      todo := todo - {k};
    }
    assert MergedOutside(base, patch.members, {}, target.value.members);
    MergedAll(base, patch, target.value.members);
  }

  lemma MergeOneKey(base: map<string, Json>, p: map<string, Json>, todo: set<string>, k: string,
                    before: map<string, Json>, now: map<string, Json>)
    requires MergedOutside(base, p, todo, before)
    requires k in todo && k in p
    requires if p[k].Null? then now == before - {k} else now == before[k := Merge(Entry(before, k), p[k])]
    ensures MergedOutside(base, p, todo - {k}, now)
  {
    assert Entry(before, k) == Entry(base, k);
  }

  lemma MergedAll(base: map<string, Json>, p: Json, now: map<string, Json>)
    requires p.Obj? && MergedOutside(base, p.members, {}, now)
    ensures Merge(Obj(base), p) == Obj(now)
  {
    var merged := Merge(Obj(base), p).members;
    forall k ensures (k in merged <==> k in now) && (k in merged ==> merged[k] == now[k]) {
      MergedAt(base, p, k);
    }
    hide Merge, MergedOutside;
    assert merged == now;
  }

  lemma MergedAt(base: map<string, Json>, p: Json, k: string)
    requires p.Obj?
    ensures var m := Merge(Obj(base), p).members;
            && (k in m <==> if k in p.members then !p.members[k].Null? else k in base)
            && (k in m ==> m[k] == if k in p.members then Merge(Entry(base, k), p.members[k]) else base[k])
  {
  }

  // Half-way through a merge: keys outside `todo` have their final member, the others the one they began with
  ghost predicate MergedOutside(
    base: map<string, Json>, p: map<string, Json>, todo: set<string>, now: map<string, Json>)
  {
    forall k ::
      if k in p && k !in todo then
        if p[k].Null? then k !in now
        else k in now && now[k] == Merge(Entry(base, k), p[k])
      else (k in now <==> k in base) && (k in base ==> now[k] == base[k])
  }

  // ---- Fixed points ----

  lemma {:induction false} MergeEstablishes(t: Json, p: Json)
    ensures Satisfies(Merge(t, p), p)
    decreases p
  {
    if p.Obj? {
      forall k | k in p.members && !p.members[k].Null?
        ensures Satisfies(Merge(t, p).members[k], p.members[k])
      {
        MergeEstablishes(Entry(Members(t), k), p.members[k]);
      }
    }
  }

  // A merge leaves a document alone exactly when the document already meets the patch
  lemma {:induction false} MergeFixedPoint(t: Json, p: Json)
    ensures Merge(t, p) == t <==> Satisfies(t, p)
    decreases p
  {
    if Merge(t, p) == t {
      MergeEstablishes(t, p);
    }
    if Satisfies(t, p) && p.Obj? {
      forall k | k in p.members && !p.members[k].Null?
        ensures Merge(t.members[k], p.members[k]) == t.members[k]
      {
        MergeFixedPoint(t.members[k], p.members[k]);
      }
      assert Merge(t, p).members == t.members;
    }
  }

  lemma {:induction false} MergeIdempotent(t: Json, p: Json)
    ensures Merge(Merge(t, p), p) == Merge(t, p)
  {
    MergeEstablishes(t, p);
    MergeFixedPoint(Merge(t, p), p);
  }

  // ---- What a merge does to each place of the document ----

  datatype Found = Absent | At(value: Json)

  function Lookup(t: Json, path: seq<string>): Found
    decreases |path|
  {
    if path == [] then At(t)
    else if t.Obj? && path[0] in t.members then Lookup(t.members[path[0]], path[1..])
    else Absent
  }

  // The patch says nothing about this place: some object on the way down lacks the next key
  predicate Silent(p: Json, path: seq<string>)
    decreases |path|
  {
    path != [] && p.Obj? &&
    (path[0] !in p.members || Silent(p.members[path[0]], path[1..]))
  }

  // Every place outside the patch keeps its value, at every depth
  lemma {:induction false} MergeFrame(t: Json, p: Json, path: seq<string>)
    requires Silent(p, path)
    ensures Lookup(Merge(t, p), path) == Lookup(t, path)
    decreases |path|
  {
    var k := path[0];
    if k in p.members {
      assert p.members[k].Obj?;
      MergeFrame(Entry(Members(t), k), p.members[k], path[1..]);
    }
  }

  // Meeting the patch and keeping every place outside it leave no choice: only the merge does both
  lemma {:induction false} MergeIsTheOnlyAnswer(t: Json, p: Json, r: Json)
    requires Satisfies(r, p)
    requires forall path | Silent(p, path) :: Lookup(r, path) == Lookup(t, path)
    ensures r == Merge(t, p)
    decreases p
  {
    if p.Obj? {
      var base, m := Members(t), Merge(t, p).members;
      forall k
        ensures k in r.members <==> k in m
        ensures k in r.members && k in m ==> r.members[k] == m[k]
      {
        if k !in p.members {
          assert Silent(p, [k]);
          assert Lookup(r, [k]) == (if k in r.members then At(r.members[k]) else Absent);
          assert Lookup(t, [k]) == (if k in base then At(base[k]) else Absent);
        } else if !p.members[k].Null? {
          forall path | Silent(p.members[k], path)
            ensures Lookup(r.members[k], path) == Lookup(Entry(base, k), path)
          {
            var full := [k] + path;
            assert full[1..] == path;
            assert Silent(p, full);
          }
          MergeIsTheOnlyAnswer(Entry(base, k), p.members[k], r.members[k]);
        }
      }
      assert r.members == m;
    }
  }

  // ---- Patches that speak of different places commute ----

  predicate Independent(p: Json, q: Json)
    decreases p
  {
    p.Obj? && q.Obj? &&
    forall k | k in p.members && k in q.members :: Independent(p.members[k], q.members[k])
  }

  lemma {:induction false} IndependentMergesCommute(t: Json, p: Json, q: Json)
    requires Independent(p, q)
    ensures Merge(Merge(t, p), q) == Merge(Merge(t, q), p)
    decreases p
  {
    var pq, qp := Merge(Merge(t, p), q), Merge(Merge(t, q), p);
    forall k
      ensures k in pq.members <==> k in qp.members
      ensures k in pq.members && k in qp.members ==> pq.members[k] == qp.members[k]
    {
      if k in p.members && k in q.members {
        IndependentMergesCommute(Entry(Members(t), k), p.members[k], q.members[k]);
      }
    }
    assert pq.members == qp.members;
  }

  // Independence keeps a met patch met
  lemma {:induction false} IndependentMergeKeeps(t: Json, p: Json, q: Json)
    requires Independent(p, q) && Satisfies(t, p)
    ensures Satisfies(Merge(t, q), p)
  {
    MergeFixedPoint(t, p);
    IndependentMergesCommute(t, p, q);
    MergeEstablishes(Merge(t, q), p);
    MergeFixedPoint(Merge(t, q), p);
  }
}
