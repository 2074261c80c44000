/** JSON documents and JSON merge patches (sections 1 and 2 of RFC 7396), as `pkg/controllers/federate/util.go` and
    `pkg/util/propagationstatus/propagationstatus.go` use them through the json-patch library. */
module MergePatch {

  datatype Json =
    | Null
    | Bool(b: bool)
    | Number(numeral: string)   // the canonical numeral of the value
    | String(s: string)
    | Array(elements: seq<Json>)
    | Object(members: map<string, Json>)

  /** The MergePatch procedure of section 2 of RFC 7396; an absent target counts as Null. */
  function Merge(target: Json, patch: Json): Json
    decreases patch
  {
    if !patch.Object? then patch
    else
      var t := if target.Object? then target.members else map[];
      Object(map k | k in t.Keys + patch.members.Keys && (k in patch.members ==> patch.members[k] != Null) ::
        if k in patch.members then Merge(if k in t then t[k] else Null, patch.members[k]) else t[k])
  }

  /** The procedure member by member: a null takes a member out, an object is merged into it, anything else replaces it,
      and what the patch does not name stays. */
  lemma MergedMember(target: map<string, Json>, patch: map<string, Json>, k: string)
    ensures var r := Merge(Object(target), Object(patch));
            && r.Object?
            && (k in r.members <==> if k in patch then patch[k] != Null else k in target)
            && (k in r.members ==>
                  var was := if k in target then target[k] else Null;
                  r.members[k] == (if k !in patch then was
                                   else if patch[k].Object? then Merge(was, patch[k])
                                   else patch[k]))
  {}

  /** The patch CreateMergePatch writes for two objects. */
  function Diff(a: map<string, Json>, b: map<string, Json>): map<string, Json>
    decreases Object(b)
  {
    map k | k in a.Keys + b.Keys && !(k in a && k in b && a[k] == b[k]) ::
      if k !in b then Null
      else if k in a && a[k].Object? && b[k].Object? then Object(Diff(a[k].members, b[k].members))
      else b[k]
  }

  /** `j` holds no null as a member of an object; arrays are opaque to merge patches. */
  ghost predicate NullFree(j: Json) {
    j.Object? ==> forall k :: k in j.members ==> j.members[k] != Null && NullFree(j.members[k])
  }

  /** What a merge patch can turn `a` into: nothing new or changed in `b` may contain a null member. */
  ghost predicate Patchable(a: map<string, Json>, b: map<string, Json>)
    decreases Object(b)
  {
    forall k :: k in b ==>
      if k in a && a[k] == b[k] then true
      else if k in a && a[k].Object? && b[k].Object? then Patchable(a[k].members, b[k].members)
      else b[k] != Null && NullFree(b[k])
  }

  /** Onto a target that is no object, a patch reproduces itself exactly when it holds no null member. */
  lemma {:induction false} MergeOntoNothing(target: Json, patch: Json)
    requires !target.Object?
    ensures Merge(target, patch) == patch <==> NullFree(patch)
    decreases patch
  {
    if patch.Object? {
      var p := patch.members;
      var r := Merge(target, patch).members;
      forall k | k in p ensures Merge(Null, p[k]) == p[k] <==> NullFree(p[k]) {
        MergeOntoNothing(Null, p[k]);
      }
      if NullFree(patch) {
        assert r == p;
      } else {
        var k :| k in p && !(p[k] != Null && NullFree(p[k]));
        assert p[k] != Null ==> r[k] == Merge(Null, p[k]);
        assert k !in r || r[k] != p[k];
      }
    }
  }

  /** The patch computed from two objects turns the first into the second exactly when a merge patch can. */
  lemma {:induction false} DiffThenMerge(a: map<string, Json>, b: map<string, Json>)
    ensures Merge(Object(a), Object(Diff(a, b))) == Object(b) <==> Patchable(a, b)
    decreases Object(b)
  {
    var d := Diff(a, b);
    var r := Merge(Object(a), Object(d)).members;
    assert r.Keys <= a.Keys + b.Keys;
    forall k | k in b ensures (k in r && r[k] == b[k]) <==>
        if k in a && a[k] == b[k] then true
        else if k in a && a[k].Object? && b[k].Object? then Patchable(a[k].members, b[k].members)
        else b[k] != Null && NullFree(b[k])
    {
      if k in a && a[k] == b[k] {
      } else if k in a && a[k].Object? && b[k].Object? {
        DiffThenMerge(a[k].members, b[k].members);
        assert r[k] == Merge(a[k], Object(Diff(a[k].members, b[k].members)));
      } else {
        assert d[k] == b[k];
        if b[k] != Null {
          var t := if k in a then a[k] else Null;
          assert r[k] == Merge(t, b[k]);
          if !t.Object? { MergeOntoNothing(t, b[k]); }
        }
      }
    }
    forall k | k in a && k !in b ensures k !in r {
      assert d[k] == Null;
    }
    if Patchable(a, b) {
      assert r == b;
    } else {
      var k :| k in b && !(
        if k in a && a[k] == b[k] then true
        else if k in a && a[k].Object? && b[k].Object? then Patchable(a[k].members, b[k].members)
        else b[k] != Null && NullFree(b[k]));
      assert r != b;
    }
  }
}
