/** Storing a scheduling result in a federated object and reading it back: applySchedulingResult
    (`pkg/controllers/scheduler/scheduler.go`), UpdateReplicasOverride (`util.go`) and getCurrentReplicasFromObject
    (`schedulingunit.go`). */
module SchedulingResult {
  import opened Wrappers
  import opened Ordering
  import opened ControllerEntries

  /** The suggested clusters of a result, each with a replica count or none. */
  type Suggested = map<string, Option<int>>

  function ReplaceOp(): string { "replace" }

  // ---------- What is stored ----------

  function Desired(result: Suggested): map<string, int> {
    map c | c in result && result[c].Some? :: result[c].value
  }

  function ReplicasPatch(cluster: string, replicas: int, path: string): ClusterPatches {
    ClusterPatches(cluster, [Patch(ReplaceOp(), path, Int(replicas))])
  }

  /** The override list for `desired`, ascending by cluster: a function of the map alone. */
  ghost function ReplicaOverrides(desired: map<string, int>, path: string): (items: seq<ClusterPatches>)
    ensures |items| == |Ascending(desired.Keys)|
    ensures forall i :: 0 <= i < |items| ==>
              items[i].cluster in desired && items[i] == ReplicasPatch(Ascending(desired.Keys)[i],
                  desired[items[i].cluster], path)
  {
    var names := Ascending(desired.Keys);
    AscendingMembers(desired.Keys);
    seq(|names|, i requires 0 <= i < |names| => assert names[i] in names; ReplicasPatch(names[i], desired[names[i]],
        path))
  }

  lemma ReplicaOverridesMembers(desired: map<string, int>, path: string)
    ensures StrictlySorted(ReplicaOverrides(desired, path), ClusterOf)
    ensures forall p :: p in ReplicaOverrides(desired, path) <==>
                        p.cluster in desired && p == ReplicasPatch(p.cluster, desired[p.cluster], path)
    ensures forall c :: c in desired ==>
              ClusterPatches(c, [Patch("replace", path, Int(desired[c]))]) in ReplicaOverrides(desired, path)
  {
    var names, items := Ascending(desired.Keys), ReplicaOverrides(desired, path);
    AscendingMembers(desired.Keys);
    forall i, j | 0 <= i < j < |items| ensures Less(ClusterOf(items[i]), ClusterOf(items[j])) {
      assert Less(Self(names[i]), Self(names[j]));
    }
    forall p: ClusterPatches | p.cluster in desired && p == ReplicasPatch(p.cluster, desired[p.cluster], path)
      ensures p in items
    {
      assert p.cluster in names;
      var i :| 0 <= i < |names| && names[i] == p.cluster;
      assert items[i] == p;
    }
  }

  lemma SortedReplicaOverrides(items: seq<ClusterPatches>, desired: map<string, int>, path: string)
    requires DistinctKeys(items, ClusterOf)
    requires forall p :: p in items <==> p.cluster in desired && p == ReplicasPatch(p.cluster, desired[p.cluster], path)
    ensures SortBy(items, ClusterOf) == ReplicaOverrides(desired, path)
  {
    SortSorted(items, ClusterOf);
    ReplicaOverridesMembers(desired, path);
    forall p ensures p in SortBy(items, ClusterOf) <==> p in ReplicaOverrides(desired, path) {
      SortMembers(items, ClusterOf, p);
    }
    StrictlySortedUnique(SortBy(items, ClusterOf), ReplicaOverrides(desired, path), ClusterOf);
  }

  /** Whatever order the map is walked in, the same list is stored. */
  method UpdateReplicasOverride(spec: Spec, scheduler: string, path: string, desired: map<string, int>)
    returns (updated: bool)
    modifies spec`overrides
    ensures spec.overrides == With(old(spec.overrides), scheduler, ReplicaOverrides(desired, path))
    ensures updated <==> spec.overrides != old(spec.overrides)
  {
    var items: seq<ClusterPatches> := [];
    var todo := desired.Keys;
    while todo != {}
      invariant todo <= desired.Keys && DistinctKeys(items, ClusterOf)
      invariant spec.overrides == old(spec.overrides)
      invariant forall p :: p in items <==>
                  p.cluster in desired.Keys - todo && p == ReplicasPatch(p.cluster, desired[p.cluster], path)
      decreases todo
    {
      var cluster :| cluster in todo;
      items := items + [ReplicasPatch(cluster, desired[cluster], path)];
      todo := todo - {cluster};
    }
    SortedReplicaOverrides(items, desired, path);
    ghost var sorted;
    updated, sorted := spec.SetControllerOverrides(scheduler, items);
  }

  method DesiredOverrides(result: Suggested) returns (desired: map<string, int>)
    ensures desired == Desired(result)
  {
    desired := map[];
    var todo := result.Keys;
    while todo != {}
      invariant todo <= result.Keys
      invariant desired == map c | c in result && c !in todo && result[c].Some? :: result[c].value
      decreases todo
    {
      var c :| c in todo;
      if result[c].Some? { desired := desired[c := result[c].value]; }
      todo := todo - {c};
    }
  }

  /** sets.List */
  method SortedList(s: set<string>) returns (names: seq<string>)
    ensures names == Ascending(s)
  {
    names := [];
    var todo := s;
    while todo != {}
      invariant todo <= s && DistinctKeys(names, Self) && forall x :: x in names <==> x in s - todo
      decreases todo
    {
      var x :| x in todo;
      assert x !in names;
      names := names + [x];
      todo := todo - {x};
    }
    SortIsAscending(names, s);
    names := SortBy(names, Self);
  }

  // ---------- Reading it back ----------

  /** The replica count the patches of one cluster ask for: the first replacement at the replicas path whose value is an
      integer. `read` is json.Unmarshal into an int64 on texts other than a printed integer. */
  function PatchedReplicas(patches: seq<Patch>, path: string, read: string -> Option<int>): Option<int> {
    if patches == [] then None
    else
      var p := patches[0];
      var value := match p.value { case Int(n) => Some(n) case OtherText(text) => read(text) };
      if p.path == path && (p.op == ReplaceOp() || p.op == "") && value.Some? then value
      else PatchedReplicas(patches[1..], path, read)
  }

  /** The count for a cluster over all overrides: the last one that has one. */
  function Current(overrides: seq<ClusterPatches>, cluster: string, path: string, read: string -> Option<int>)
    : Option<int>
  {
    if overrides == [] then None
    else
      var last := overrides[|overrides| - 1];
      var replicas := PatchedReplicas(last.patches, path, read);
      if last.cluster == cluster && replicas.Some? then replicas
      else Current(overrides[..|overrides| - 1], cluster, path, read)
  }

  function ReadBack(placements: seq<Owned<string>>, overrides: seq<Owned<ClusterPatches>>, scheduler: string,
                    path: string, read: string -> Option<int>): Suggested
  {
    map c | c in Items(placements, scheduler) :: Current(Items(overrides, scheduler), c, path, read)
  }

  /** The count one patch asks for: it replaces the value at the path, an absent operator counting as a replacement, and
      the value is an integer. */
  function CountOf(p: Patch, path: string, read: string -> Option<int>): Option<int> {
    if p.path != path || (p.op != "replace" && p.op != "") then None
    else if p.value.Int? then Some(p.value.n)
    else read(p.value.text)
  }

  predicate IsFirstCount(patches: seq<Patch>, i: int, path: string, read: string -> Option<int>) {
    && 0 <= i < |patches| && CountOf(patches[i], path, read).Some?
    && forall k :: 0 <= k < i ==> CountOf(patches[k], path, read).None?
  }

  method FirstReplicas(patches: seq<Patch>, path: string, read: string -> Option<int>) returns (replicas: Option<int>)
    ensures replicas == PatchedReplicas(patches, path, read)
    ensures replicas.Some? <==> exists i :: 0 <= i < |patches| && CountOf(patches[i], path, read).Some?
    ensures forall i :: IsFirstCount(patches, i, path, read) ==> replicas == CountOf(patches[i], path, read)
  {
    for i := 0 to |patches|
      invariant PatchedReplicas(patches, path, read) == PatchedReplicas(patches[i..], path, read)
      invariant forall k :: 0 <= k < i ==> CountOf(patches[k], path, read).None?
    {
      assert patches[i..][1..] == patches[i + 1..];
      var p := patches[i];
      if p.path == path && (p.op == ReplaceOp() || p.op == "") {
        var value := match p.value { case Int(n) => Some(n) case OtherText(text) => read(text) };
        if value.Some? { return value; }
      }
    }
    return None;
  }

  method GetCurrentReplicas(spec: Spec, scheduler: string, path: string, read: string -> Option<int>)
    returns (res: Suggested)
    ensures res == ReadBack(spec.placements, spec.overrides, scheduler, path, read)
  {
    var placements := spec.GetControllerPlacement(scheduler);
    var overrides := spec.GetControllerOverrides(scheduler);
    res := Placed(placements);
    for i := 0 to |overrides|
      invariant res.Keys == set c | c in placements
      invariant forall c :: c in res ==> res[c] == Current(overrides[..i], c, path, read)
    {
      var o, before := overrides[i], res;
      forall c ensures Current(overrides[..i + 1], c, path, read) == CurrentStep(overrides[..i], o, c, path, read) {
        assert overrides[..i + 1][..i] == overrides[..i];
      }
      if o.cluster in res {
        var replicas := FirstReplicas(o.patches, path, read);
        if replicas.Some? { res := res[o.cluster := replicas]; }
      }
    }
    assert overrides[..|overrides|] == overrides;
  }

  method Placed(placements: seq<string>) returns (res: Suggested)
    ensures res.Keys == (set c | c in placements) && forall c :: c in res ==> res[c] == None
  {
    res := map[];
    for i := 0 to |placements|
      invariant forall c :: c in res <==> c in placements[..i]
      invariant forall c :: c in res ==> res[c] == None
    {
      res := res[placements[i] := None];
    }
  }

  function CurrentStep(before: seq<ClusterPatches>, last: ClusterPatches, cluster: string, path: string,
                       read: string -> Option<int>): Option<int>
  {
    var replicas := PatchedReplicas(last.patches, path, read);
    if last.cluster == cluster && replicas.Some? then replicas else Current(before, cluster, path, read)
  }

  lemma {:induction false} CurrentOfPatches(items: seq<ClusterPatches>, desired: map<string, int>, c: string,
                                            path: string, read: string -> Option<int>)
    requires forall p :: p in items ==> p.cluster in desired && p == ReplicasPatch(p.cluster, desired[p.cluster], path)
    ensures Current(items, c, path, read) ==
            if exists i :: 0 <= i < |items| && items[i].cluster == c then Some(desired[c]) else None
  {
    if items != [] {
      var n := |items| - 1;
      CurrentOfPatches(items[..n], desired, c, path, read);
      assert items[n] in items;
      assert PatchedReplicas(items[n].patches, path, read) == Some(desired[items[n].cluster]);
      if i :| 0 <= i < |items| && items[i].cluster == c && i < n {
        assert items[..n][i].cluster == c;
      }
    }
  }

  /** The override of a cluster that counts is the last one that has a count. */
  lemma {:induction false} CurrentIsLast(items: seq<ClusterPatches>, c: string, path: string,
                                         read: string -> Option<int>, i: nat)
    requires i < |items| && items[i].cluster == c && PatchedReplicas(items[i].patches, path, read).Some?
    requires forall k :: i < k < |items| ==>
               items[k].cluster != c || PatchedReplicas(items[k].patches, path, read).None?
    ensures Current(items, c, path, read) == PatchedReplicas(items[i].patches, path, read)
  {
    if i < |items| - 1 { CurrentIsLast(items[..|items| - 1], c, path, read, i); }
  }

  lemma CurrentOfReplicaOverrides(desired: map<string, int>, c: string, path: string, read: string -> Option<int>)
    ensures Current(ReplicaOverrides(desired, path), c, path, read) == if c in desired then Some(desired[c]) else None
  {
    var items := ReplicaOverrides(desired, path);
    ReplicaOverridesMembers(desired, path);
    CurrentOfPatches(items, desired, c, path, read);
    if c in desired {
      assert ReplicasPatch(c, desired[c], path) in items;
      var i :| 0 <= i < |items| && items[i] == ReplicasPatch(c, desired[c], path);
      assert items[i].cluster == c;
    }
  }

  // ---------- applySchedulingResult ----------

  datatype Aux = Aux(followerScheduling: bool, threshold: Option<string>)

  /** The parts of a federated object the scheduler writes. */
  datatype Object = Object(placements: seq<Owned<string>>, overrides: seq<Owned<ClusterPatches>>,
                           follower: Option<bool>, threshold: Option<string>, scheduling: Option<string>)

  /** At most one entry per controller, as every sequence of Set calls on a new object leaves it. */
  predicate Tidy(o: Object) {
    OnePerController(o.placements) && OnePerController(o.overrides)
  }

  /** The object after a result is applied; `value` is the text of the scheduling annotation. */
  ghost function Applied(o: Object, scheduler: string, path: string, result: Suggested, aux: Aux, value: string): Object
  {
    var placements := With(o.placements, scheduler, Ascending(result.Keys));
    var overrides := With(o.overrides, scheduler, ReplicaOverrides(Desired(result), path));
    var moved := placements != o.placements || overrides != o.overrides;
    Object(placements, overrides, Some(aux.followerScheduling), aux.threshold, if moved then Some(value)
        else o.scheduling)
  }

  lemma AscendingEmpty(s: set<string>)
    ensures Ascending(s) == [] <==> s == {}
  {
    AscendingMembers(s);
    if s != {} { var x :| x in s; assert x in Ascending(s); }
    if Ascending(s) != [] { assert Ascending(s)[0] in Ascending(s); }
  }

  lemma AppliedKeepsTidy(o: Object, scheduler: string, path: string, result: Suggested, aux: Aux, value: string)
    requires Tidy(o)
    ensures Tidy(Applied(o, scheduler, path, result, aux, value))
  {
    WithKeepsOnePerController(o.placements, scheduler, Ascending(result.Keys));
    WithKeepsOnePerController(o.overrides, scheduler, ReplicaOverrides(Desired(result), path));
  }

  /** The scheduler has no further placement entry, with clusters in it, that deleting the first one would uncover. */
  predicate NoPlacementLeft(o: Object, scheduler: string) {
    Items(Without(o.placements, scheduler), scheduler) == []
  }

  /** No cluster of `result` gets a replica count from an override entry that deleting the first one would uncover. */
  predicate NoReplicasLeft(o: Object, scheduler: string, path: string, result: Suggested, read: string -> Option<int>) {
    forall c :: c in result ==> Current(Items(Without(o.overrides, scheduler), scheduler), c, path, read) == None
  }

  /** A result that was applied reads back exactly, the same clusters with the same replica counts, unless applying it
      deletes an entry and uncovers another of the scheduler's own. */
  lemma ResultRoundTrip(o: Object, scheduler: string, path: string, result: Suggested, aux: Aux, value: string,
                        read: string -> Option<int>)
    ensures var a := Applied(o, scheduler, path, result, aux, value);
            ReadBack(a.placements, a.overrides, scheduler, path, read) == result <==>
            && (result == map[] ==> NoPlacementLeft(o, scheduler))
            && (Desired(result) == map[] ==> NoReplicasLeft(o, scheduler, path, result, read))
  {
    var a, items := Applied(o, scheduler, path, result, aux, value), ReplicaOverrides(Desired(result), path);
    PlacementsReadBack(o, scheduler, result);
    DesiredEmpty(result, path);
    var back := ReadBack(a.placements, a.overrides, scheduler, path, read);
    assert back.Keys == set c | c in Items(a.placements, scheduler);
    ItemsAfterWith(o.overrides, scheduler, items);
    if Desired(result) != map[] {
      forall c | c in result ensures Current(items, c, path, read) == result[c] {
        CurrentOfReplicaOverrides(Desired(result), c, path, read);
      }
    } else {
      forall c | c in result ensures result[c] == None { assert c !in Desired(result); }
    }
  }

  lemma PlacementsReadBack(o: Object, scheduler: string, result: Suggested)
    ensures var items := Items(With(o.placements, scheduler, Ascending(result.Keys)), scheduler);
            (set c | c in items) == result.Keys <==> (result == map[] ==> NoPlacementLeft(o, scheduler))
  {
    var items := Items(With(o.placements, scheduler, Ascending(result.Keys)), scheduler);
    ItemsAfterWith(o.placements, scheduler, Ascending(result.Keys));
    AscendingMembers(result.Keys);
    AscendingEmpty(result.Keys);
    if result == map[] {
      assert result.Keys == {} && Ascending(result.Keys) == [];
      assert items == Items(Without(o.placements, scheduler), scheduler);
      var clusters := set c | c in items;
      if items != [] { assert items[0] in clusters; }
    }
  }

  lemma DesiredEmpty(result: Suggested, path: string)
    ensures ReplicaOverrides(Desired(result), path) == [] <==> Desired(result) == map[]
  {
    AscendingEmpty(Desired(result).Keys);
  }

  /** What other controllers stored is not touched. */
  lemma AppliedKeepsOthers(o: Object, scheduler: string, path: string, result: Suggested, aux: Aux, value: string,
                           other: string)
    requires other != scheduler
    ensures var a := Applied(o, scheduler, path, result, aux, value);
            && Items(a.placements, other) == Items(o.placements, other)
            && Items(a.overrides, other) == Items(o.overrides, other)
  {
    OthersAfterWith(o.placements, scheduler, Ascending(result.Keys), other);
    OthersAfterWith(o.overrides, scheduler, ReplicaOverrides(Desired(result), path), other);
  }

  /** Applying the same result again changes nothing, the scheduling annotation included, unless it deletes a further
      entry of the scheduler. */
  lemma SecondApplyIsNoOp(o: Object, scheduler: string, path: string, result: Suggested, aux: Aux, value: string,
                          later: string)
    ensures var a := Applied(o, scheduler, path, result, aux, value);
            Applied(a, scheduler, path, result, aux, later) == a <==>
            && (result == map[] ==> !Owns(Without(o.placements, scheduler), scheduler))
            && (Desired(result) == map[] ==> !Owns(Without(o.overrides, scheduler), scheduler))
  {
    AscendingEmpty(result.Keys);
    DesiredEmpty(result, path);
    WithTwice(o.placements, scheduler, Ascending(result.Keys));
    WithTwice(o.overrides, scheduler, ReplicaOverrides(Desired(result), path));
  }

  /** With one entry per controller both hold without exception. */
  lemma TidyObjects(o: Object, scheduler: string, path: string, result: Suggested, aux: Aux, value: string,
                    later: string, read: string -> Option<int>)
    requires Tidy(o)
    ensures var a := Applied(o, scheduler, path, result, aux, value);
            && ReadBack(a.placements, a.overrides, scheduler, path, read) == result
            && Applied(a, scheduler, path, result, aux, later) == a
  {
    OneEntryLeavesNone(o.placements, scheduler);
    OneEntryLeavesNone(o.overrides, scheduler);
    ResultRoundTrip(o, scheduler, path, result, aux, value, read);
    SecondApplyIsNoOp(o, scheduler, path, result, aux, value, later);
  }

  /** The case of the empty result: descheduling removes only the first entry, so the empty result reads back
      exactly when no further entry with clusters in it was there. */
  lemma EmptyResultReadsBack(o: Object, scheduler: string, path: string, aux: Aux, value: string,
                             read: string -> Option<int>)
    ensures var a := Applied(o, scheduler, path, map[], aux, value);
            ReadBack(a.placements, a.overrides, scheduler, path, read) == map[] <==>
            Items(Without(o.placements, scheduler), scheduler) == []
  {
    var a := Applied(o, scheduler, path, map[], aux, value);
    AscendingOfNone();
    ReadBackNone(Without(o.placements, scheduler), a.overrides, scheduler, path, read);
  }

  lemma AscendingOfNone()
    ensures var none: Suggested := map[]; Ascending(none.Keys) == []
  {
    var none: Suggested := map[];
    assert none.Keys == {};
    AscendingEmpty(none.Keys);
  }

  lemma ReadBackNone(placements: seq<Owned<string>>, overrides: seq<Owned<ClusterPatches>>, scheduler: string,
                     path: string, read: string -> Option<int>)
    ensures ReadBack(placements, overrides, scheduler, path, read) == map[] <==> Items(placements, scheduler) == []
  {
    var items := Items(placements, scheduler);
    if items != [] {
      assert items[0] in items;
      assert items[0] in ReadBack(placements, overrides, scheduler, path, read);
    }
  }

  lemma DuplicateEntrySurvivesDescheduling(scheduler: string, c: string, path: string, aux: Aux, value: string,
                                           read: string -> Option<int>)
    ensures var o := Object([Owned(scheduler, [c]), Owned(scheduler, [c])], [], None, None, None);
            var a := Applied(o, scheduler, path, map[], aux, value);
            ReadBack(a.placements, a.overrides, scheduler, path, read) != map[]
  {
    var entry := Owned(scheduler, [c]);
    var twice := [entry, entry];
    FindIs(twice, scheduler, 0);
    assert Without(twice, scheduler) == [entry];
    FindIs([entry], scheduler, 0);
    EmptyResultReadsBack(Object(twice, [], None, None, None), scheduler, path, aux, value, read);
  }

  /** The same for replica counts: the override entry left behind answers for a cluster that was given no count. */
  lemma DuplicateOverrideComesBack(scheduler: string, c: string, n: int, path: string, aux: Aux, value: string,
                                   read: string -> Option<int>)
    ensures var entry := Owned(scheduler, [ReplicasPatch(c, n, path)]);
            var result: Suggested := map[c := None];
            var a := Applied(Object([], [entry, entry], None, None, None), scheduler, path, result, aux, value);
            ReadBack(a.placements, a.overrides, scheduler, path, read) != result
  {
    var items := [ReplicasPatch(c, n, path)];
    var entry := Owned(scheduler, items);
    var result: Suggested := map[c := None];
    var o := Object([], [entry, entry], None, None, None);
    FindIs(o.overrides, scheduler, 0);
    assert Without(o.overrides, scheduler) == [entry];
    FindIs([entry], scheduler, 0);
    assert PatchedReplicas(items[0].patches, path, read) == Some(n);
    assert Current(items, c, path, read) == Some(n);
    assert Desired(result) == map[];
    ResultRoundTrip(o, scheduler, path, result, aux, value, read);
    assert c in result && Current(Items(Without(o.overrides, scheduler), scheduler), c, path, read) == Some(n);
  }

  /** The first two parts of applySchedulingResult: placements, then replica overrides. */
  method SetPlacementAndReplicas(spec: Spec, scheduler: string, path: string, result: Suggested) returns (moved: bool)
    modifies spec
    ensures spec.placements == With(old(spec.placements), scheduler, Ascending(result.Keys))
    ensures spec.overrides == With(old(spec.overrides), scheduler, ReplicaOverrides(Desired(result), path))
    ensures moved <==> spec.placements != old(spec.placements) || spec.overrides != old(spec.overrides)
  {
    var names := SortedList(result.Keys);
    AscendingMembers(result.Keys);
    forall i, j | 0 <= i < j < |names| ensures Self(names[i]) != Self(names[j]) {
      LessTrichotomy(Self(names[i]), Self(names[j]));
    }
    SortIsAscending(names, result.Keys);
    var placementUpdated := spec.SetControllerPlacement(scheduler, names);
    var desired := DesiredOverrides(result);
    var overridesUpdated := UpdateReplicasOverride(spec, scheduler, path, desired);
    moved := placementUpdated || overridesUpdated;
  }

  class FederatedObject {
    const spec: Spec
    var follower: Option<bool>
    var threshold: Option<string>
    var scheduling: Option<string>

    constructor (spec: Spec)
      ensures this.spec == spec && follower == None && threshold == None && scheduling == None
    {
      this.spec, follower, threshold, scheduling := spec, None, None, None;
    }

    ghost function Value(): Object
      reads this, spec
    {
      Object(spec.placements, spec.overrides, follower, threshold, scheduling)
    }

    /** applySchedulingResult. `value` is the text for the scheduling annotation, absent when the template does not
        parse: then a changed result is an error, and the caller drops the object. */
    method ApplySchedulingResult(scheduler: string, path: string, result: Suggested, aux: Aux, value: Option<string>)
      returns (modified: Result<bool>)
      modifies this, spec
      ensures modified.Ok? ==>
                var text := if value.Some? then value.value else "";
                && Value() == Applied(old(Value()), scheduler, path, result, aux, text)
                && (modified.value <==> Value() != old(Value()))
      ensures follower == Some(aux.followerScheduling) && threshold == aux.threshold
      ensures var moved := spec.placements != old(spec.placements) || spec.overrides != old(spec.overrides);
              scheduling == if moved && value.Some? then value else old(scheduling)
      ensures modified.Err? <==>
                value.None? && (spec.placements != old(spec.placements) || spec.overrides != old(spec.overrides))
    {
      var objectModified := SetPlacementAndReplicas(spec, scheduler, path, result);
      var annotationsModified := false;
      if follower != Some(aux.followerScheduling) {
        follower := Some(aux.followerScheduling);
        annotationsModified := true;
      }
      if aux.threshold.None? {
        if threshold.Some? {
          threshold := None;
          annotationsModified := true;
        }
      } else if threshold != aux.threshold {
        threshold := aux.threshold;
        annotationsModified := true;
      }
      if objectModified {
        if value.None? { return Err; }
        scheduling := value;
        annotationsModified := true;
      }
      if annotationsModified { objectModified := true; }
      return Ok(objectModified);
    }
  }
}
