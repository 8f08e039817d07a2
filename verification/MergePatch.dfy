/**
 The merge patch that runtimeclient.MergeFrom computes between the machine as it was read and as it
 is now (pkg/actuators/machine/machine_scope.go:90), and what the API server makes of it, as section 2
 of RFC 7396 says. Scalars of all kinds are leaves.
 */
module MergePatch {
  import opened Basics

  datatype Json = Null | Leaf(text: string) | Arr(items: seq<Json>) | Obj(fields: map<string, Json>)

  const EMPTY := Obj(map[])

  function Get(j: Option<Json>, key: string): Option<Json> {
    if j.Some? && j.value.Obj? && key in j.value.fields then Some(j.value.fields[key]) else None
  }

  /** What the patch says about a member that was a and becomes v; absent when it says nothing. */
  function Member(a: Option<Json>, v: Json): Option<Json>
    decreases v, 1
  {
    if a.None? then Some(v)
    else if a.value.Obj? && v.Obj? then
      var d := Diff(a.value, v);
      if d == map[] then None else Some(Obj(d))
    else if a.value == v then None
    else Some(v)
  }

  /** The members of the patch between two objects; a member that is gone is null. */
  function Diff(a: Json, b: Json): map<string, Json>
    requires a.Obj? && b.Obj?
    decreases b, 0
  {
    map k | k in a.fields.Keys + b.fields.Keys && (k in b.fields ==> Member(Get(Some(a), k), b.fields[k]).Some?)
      :: if k in b.fields then Member(Get(Some(a), k), b.fields[k]).value else Null
  }

  function Fields(t: Json): map<string, Json> { if t.Obj? then t.fields else map[] }

  /** The merge: a null member removes, an object member merges, anything else replaces. */
  function Apply(t: Json, p: Json): Json
    decreases p
  {
    if !p.Obj? then p
    else
      var target := Fields(t);
      Obj(map k | k in target.Keys + p.fields.Keys && (k in p.fields ==> p.fields[k] != Null)
            :: if k in p.fields then Apply(if k in target then target[k] else Null, p.fields[k]) else target[k])
  }

  /** The whole step: the patch from o to m, merged into t. */
  function Patched(o: Json, m: Json, t: Json): (r: Json)
    requires o.Obj? && m.Obj?
    ensures r.Obj?
  {
    Apply(t, Obj(Diff(o, m)))
  }

  // ---------------------------------------------------------------- What a patched document holds

  function At(j: Option<Json>, path: seq<string>): Option<Json>
    decreases |path|
  {
    if path == [] then j else At(Get(j, path[0]), path[1..])
  }

  /** What a change from o to m does at a path: nothing, put m's value there, or change what is inside an object. */
  datatype Effect = Keeps | Puts | Inside

  function EffectAt(o: Option<Json>, m: Option<Json>, path: seq<string>): Effect
    decreases |path|
  {
    if o == m then Keeps
    else if m.None? || !m.value.Obj? then Puts
    else if path == [] then Inside
    else EffectAt(Get(o, path[0]), Get(m, path[0]), path[1..])
  }

  /** No change sets a member to null: a merge patch has no way to say that. */
  predicate Sayable(o: Option<Json>, m: Json)
    decreases m
  {
    o == Some(m) || (m != Null && (m.Obj? ==> forall k :: k in m.fields ==> Sayable(Get(o, k), m.fields[k])))
  }

  function MemberPatch(o: Option<Json>, m: Option<Json>): Option<Json> {
    if m.Some? then Member(o, m.value) else if o.Some? then Some(Null) else None
  }

  function ApplyMember(t: Option<Json>, p: Option<Json>): Option<Json> {
    if p.None? then t else if p.value == Null then None else Some(Apply(t.GetOr(Null), p.value))
  }

  /** One member after the merge. */
  function Merged3(o: Option<Json>, m: Option<Json>, t: Option<Json>): Option<Json> {
    ApplyMember(t, MemberPatch(o, m))
  }

  lemma GetPatched(o: Json, m: Json, t: Json, key: string)
    requires o.Obj? && m.Obj?
    ensures Get(Some(Patched(o, m, t)), key) == Merged3(Get(Some(o), key), Get(Some(m), key), Get(Some(t), key))
  {
    hide Member;
    assert Get(Some(Obj(Diff(o, m))), key) == MemberPatch(Get(Some(o), key), Get(Some(m), key));
  }

  lemma {:induction false} DiffEmpty(a: Json, b: Json)
    requires a.Obj? && b.Obj?
    ensures Diff(a, b) == map[] <==> a == b
    decreases b
  {
    forall k | k in b.fields ensures Member(Get(Some(a), k), b.fields[k]).None? <==> Get(Some(a), k) == Some(b.fields[k]) {
      if k in a.fields && a.fields[k].Obj? && b.fields[k].Obj? { DiffEmpty(a.fields[k], b.fields[k]); }
    }
    hide Member;
    if Diff(a, b) == map[] {
      forall k ensures Get(Some(a), k) == Get(Some(b), k) {
        assert k !in Diff(a, b);
      }
      SameFields(a, b);
    } else {
      var k :| k in Diff(a, b);
    }
  }

  /** Objects that agree on every member are equal. */
  lemma SameFields(a: Json, b: Json)
    requires a.Obj? && b.Obj?
    requires forall k :: Get(Some(a), k) == Get(Some(b), k)
    ensures a == b
  {
    forall k ensures (k in a.fields <==> k in b.fields) && (k in a.fields ==> a.fields[k] == b.fields[k]) {
      assert Get(Some(a), k) == Get(Some(b), k);
    }
    assert a.fields == b.fields;
  }

  function ObjPart(o: Option<Json>): Json { if o.Some? && o.value.Obj? then o.value else EMPTY }

  /** The patch for a changed member that becomes an object is the difference of the objects. */
  lemma ObjectMember(o: Option<Json>, m: Json)
    requires m.Obj? && o != Some(m)
    ensures MemberPatch(o, Some(m)) == Some(Obj(Diff(ObjPart(o), m)))
  {
    if o.Some? && o.value.Obj? {
      DiffEmpty(o.value, m);
    } else {
      assert Diff(EMPTY, m) == m.fields;
    }
  }

  lemma UnchangedMember(o: Option<Json>)
    ensures MemberPatch(o, o).None?
  {
    if o.Some? && o.value.Obj? { DiffEmpty(o.value, o.value); }
  }

  /** The merge of a changed object member, key by key. */
  lemma ObjectMerged(o: Option<Json>, m: Json, t: Option<Json>, key: string)
    requires m.Obj? && o != Some(m)
    ensures var r := Merged3(o, Some(m), t);
      && r.Some? && r.value.Obj?
      && Get(r, key) == Merged3(Get(o, key), Get(Some(m), key), Get(t, key))
  {
    hide Member, Diff;
    ObjectMember(o, m);
    var t0 := t.GetOr(Null);
    GetPatched(ObjPart(o), m, t0, key);
    hide Apply;
    assert Merged3(o, Some(m), t) == Some(Patched(ObjPart(o), m, t0));
    assert Get(Some(ObjPart(o)), key) == Get(o, key) && Get(Some(t0), key) == Get(t, key);
  }

  /**
   A three-way merge: at every path the stored document keeps its own value where the change keeps,
   and has the new one where the change puts one.
   */
  lemma {:induction false} MergedAt(o: Option<Json>, m: Option<Json>, t: Option<Json>, path: seq<string>)
    requires m.Some? ==> Sayable(o, m.value)
    ensures var r := At(Merged3(o, m, t), path);
      match EffectAt(o, m, path)
      case Keeps => r == At(t, path)
      case Puts => r == At(m, path)
      case Inside => r.Some? && r.value.Obj?
    decreases |path|
  {
    hide Member, Diff;
    if o == m {
      UnchangedMember(o);
    } else if m.None? || !m.value.Obj? {
      assert Merged3(o, m, t) == m by { ScalarMerged(o, m, t); }
    } else {
      hide Apply;
      ObjectMerged(o, m.value, t, if path == [] then "" else path[0]);
      if path != [] {
        var k := path[0];
        MergedAt(Get(o, k), Get(m, k), Get(t, k), path[1..]);
      }
    }
  }

  lemma ScalarMerged(o: Option<Json>, m: Option<Json>, t: Option<Json>)
    requires o != m && (m.Some? ==> m.value != Null && !m.value.Obj?)
    ensures Merged3(o, m, t) == m
  {
  }

  /** The merge into any stored document, path by path. */
  lemma PatchedAt(o: Json, m: Json, t: Json, path: seq<string>)
    requires o.Obj? && m.Obj? && t.Obj? && Sayable(Some(o), m)
    ensures var r := At(Some(Patched(o, m, t)), path);
      match EffectAt(Some(o), Some(m), path)
      case Keeps => r == At(Some(t), path)
      case Puts => r == At(Some(m), path)
      case Inside => r.Some? && r.value.Obj?
  {
    PatchedWhole(o, m, t);
    MergedAt(Some(o), Some(m), Some(t), path);
  }

  lemma PatchedWhole(o: Json, m: Json, t: Json)
    requires o.Obj? && m.Obj? && t.Obj?
    ensures Merged3(Some(o), Some(m), Some(t)) == Some(Patched(o, m, t))
  {
    hide Member, Diff;
    if o == m {
      UnchangedMember(Some(o));
      DiffEmpty(o, m);
      assert Apply(t, Obj(map[])) == t;
    } else {
      ObjectMember(Some(o), m);
    }
  }

  /** Patching the document the change was computed from gives the changed one, exactly when it sets no null. */
  lemma RoundTrip(o: Json, m: Json)
    requires o.Obj? && m.Obj?
    ensures Patched(o, m, o) == m <==> Sayable(Some(o), m)
  {
    PatchedWhole(o, m, o);
    MergedIntoItself(Some(o), m);
  }

  lemma {:induction false} MergedIntoItself(o: Option<Json>, m: Json)
    ensures Merged3(o, Some(m), o) == Some(m) <==> Sayable(o, m)
    decreases m
  {
    hide Member, Diff, Apply;
    if o == Some(m) {
      UnchangedMember(o);
    } else if m.Obj? {
      var r := Merged3(o, Some(m), o);
      ObjectMerged(o, m, o, "");
      forall k ensures Get(r, k) == Get(Some(m), k) <==> (k in m.fields ==> Sayable(Get(o, k), m.fields[k])) {
        ObjectMerged(o, m, o, k);
        if k in m.fields { MergedIntoItself(Get(o, k), m.fields[k]); }
      }
      if Sayable(o, m) { SameFields(r.value, m); }
    } else {
      SetScalar(o, m);
    }
  }

  lemma SetScalar(o: Option<Json>, m: Json)
    requires !m.Obj? && o != Some(m)
    ensures Merged3(o, Some(m), o) == (if m == Null then None else Some(m))
  {
  }
}
