/** Batching overriders per container (`pkg/controllers/override/envspatch.go`,
    `pkg/controllers/override/commandargspatch.go`): one `replace` patch per touched container against applying the
    overriders to the pod spec one at a time. */
module OverrideBatch {
  import opened Wrappers
  import EnvOverrider
  import opened Filters
  import opened Ordering
  import opened OverridePath

  /** A container, with the one field (command, args or env) that is being overridden. */
  datatype Container<V> = Container(name: string, value: V)

  datatype PodSpec<V> = PodSpec(initContainers: seq<Container<V>>, containers: seq<Container<V>>)

  /** What is known of the object: the path of the pod spec for its kind, if the kind has one, and the pod spec read
      there, if it could be read. */
  datatype Helper<V> = Helper(podSpecPath: Option<string>, podSpec: Result<PodSpec<V>>)

  predicate HasPodSpec<V>(h: Helper<V>) {
    h.podSpecPath.Some? && h.podSpec.Ok?
  }

  datatype Overrider<O> = Overrider(containerName: string, op: O)

  predicate At<V>(pod: PodSpec<V>, p: Place) {
    match p case Init(i) => i < |pod.initContainers| case Main(i) => i < |pod.containers|
  }

  function Get<V>(pod: PodSpec<V>, p: Place): Container<V>
    requires At(pod, p)
  {
    match p case Init(i) => pod.initContainers[i] case Main(i) => pod.containers[i]
  }

  /** A JSON `replace` of the field of one container. */
  function Replace<V>(pod: PodSpec<V>, p: Place, v: V): PodSpec<V>
    requires At(pod, p)
  {
    match p
    case Init(i) => pod.(initContainers := pod.initContainers[i := pod.initContainers[i].(value := v)])
    case Main(i) => pod.(containers := pod.containers[i := pod.containers[i].(value := v)])
  }

  function FirstNamed<V>(cs: seq<Container<V>>, name: string): (r: Option<nat>)
    ensures r.Some? ==> r.value < |cs| && cs[r.value].name == name
  {
    if cs == [] then None
    else if cs[0].name == name then Some(0)
    else
      var r := FirstNamed(cs[1..], name);
      if r.Some? then Some(r.value + 1) else None
  }

  /** The container an overrider is for: the first of that name among the init containers, then among the others. */
  function Find<V>(pod: PodSpec<V>, name: string): (r: Option<Place>)
    ensures r.Some? ==> At(pod, r.value) && Get(pod, r.value).name == name
  {
    var i := FirstNamed(pod.initContainers, name);
    if i.Some? then Some(Init(i.value))
    else
      var j := FirstNamed(pod.containers, name);
      if j.Some? then Some(Main(j.value)) else None
  }

  method FindIn<V>(cs: seq<Container<V>>, name: string) returns (r: Option<nat>)
    ensures r == FirstNamed(cs, name)
    ensures r.Some? ==> r.value < |cs| && cs[r.value].name == name
    ensures forall k :: 0 <= k < (if r.Some? then r.value else |cs|) ==> cs[k].name != name
  {
    for i := 0 to |cs|
      invariant FirstNamed(cs, name) == (var r := FirstNamed(cs[i..], name); if r.Some? then Some(r.value + i)
          else None)
      invariant forall k :: 0 <= k < i ==> cs[k].name != name
    {
      if cs[i].name == name { return Some(i); }
      assert cs[i..][1..] == cs[i + 1..];
    }
    return None;
  }

  method LookForMatchedContainer<V>(pod: PodSpec<V>, name: string) returns (r: Option<Place>)
    ensures r == Find(pod, name)
    ensures r.None? ==> forall k :: 0 <= k < |pod.containers| ==> pod.containers[k].name != name
    ensures r.None? || r.value.Main? ==>
              forall k :: 0 <= k < |pod.initContainers| ==> pod.initContainers[k].name != name
    ensures r.Some? && r.value.Init? ==>
              && r.value.index < |pod.initContainers| && pod.initContainers[r.value.index].name == name
              && forall k :: 0 <= k < r.value.index ==> pod.initContainers[k].name != name
    ensures r.Some? && r.value.Main? ==>
              && r.value.index < |pod.containers| && pod.containers[r.value.index].name == name
              && forall k :: 0 <= k < r.value.index ==> pod.containers[k].name != name
  {
    var i := FindIn(pod.initContainers, name);
    if i.Some? { return Some(Init(i.value)); }
    var j := FindIn(pod.containers, name);
    if j.Some? { return Some(Main(j.value)); }
    return None;
  }

  // ---------- The two ways ----------

  /** One overrider after the other, each on the pod spec the previous one left. */
  function OneByOne<V, O>(pod: PodSpec<V>, os: seq<Overrider<O>>, apply: (V, O) -> Result<V>): Result<PodSpec<V>> {
    if os == [] then Ok(pod)
    else
      var before := OneByOne(pod, os[..|os| - 1], apply);
      if before.Err? then Err
      else
        var o := os[|os| - 1];
        var p := Find(before.value, o.containerName);
        if p.None? then before
        else
          var v := apply(Get(before.value, p.value).value, o.op);
          if v.Err? then Err else Ok(Replace(before.value, p.value, v.value))
  }

  /** `p` is the first container of the name, init containers counted first. */
  predicate IsFirstNamed<V>(pod: PodSpec<V>, p: Place, name: string) {
    && At(pod, p) && Get(pod, p).name == name
    && (forall k :: 0 <= k < |pod.initContainers| && (p.Init? ==> k < p.index) ==> pod.initContainers[k].name != name)
    && (p.Main? ==> forall k :: 0 <= k < p.index ==> pod.containers[k].name != name)
  }

  predicate NoneNamed<V>(pod: PodSpec<V>, name: string) {
    && (forall k :: 0 <= k < |pod.initContainers| ==> pod.initContainers[k].name != name)
    && (forall k :: 0 <= k < |pod.containers| ==> pod.containers[k].name != name)
  }

  lemma {:induction false} FirstNamedIs<V>(cs: seq<Container<V>>, name: string, k: nat)
    requires k <= |cs| && (k < |cs| ==> cs[k].name == name) && forall i :: 0 <= i < k ==> cs[i].name != name
    ensures FirstNamed(cs, name) == if k < |cs| then Some(k) else None
  {
    if k > 0 { FirstNamedIs(cs[1..], name, k - 1); }
  }

  /** The container at `p` has value `v` afterwards, and nothing else has changed. */
  ghost predicate ChangesOnly<V(!new)>(before: PodSpec<V>, after: PodSpec<V>, p: Place, v: V)
    requires At(before, p)
  {
    && (forall q :: At(after, q) <==> At(before, q))
    && (forall q :: At(before, q) ==>
          Get(after, q) == if q == p then Container(Get(before, p).name, v) else Get(before, q))
  }

  lemma ReplaceChangesOnly<V(!new)>(pod: PodSpec<V>, p: Place, v: V)
    requires At(pod, p)
    ensures ChangesOnly(pod, Replace(pod, p, v), p, v)
  {}

  /** One more overrider: without a container of its name it does nothing; otherwise it fails if its operation fails on
      the first one's value, and else changes that value and nothing else. */
  lemma OneMoreOverrider<V(!new), O>(pod: PodSpec<V>, os: seq<Overrider<O>>, o: Overrider<O>,
                                     apply: (V, O) -> Result<V>, p: Place)
    requires OneByOne(pod, os, apply).Ok?
    ensures var before, after := OneByOne(pod, os, apply).value, OneByOne(pod, os + [o], apply);
            && (NoneNamed(before, o.containerName) ==> after == Ok(before))
            && (IsFirstNamed(before, p, o.containerName) ==>
                  var v := apply(Get(before, p).value, o.op);
                  && (after.Err? <==> v.Err?)
                  && (v.Ok? ==> ChangesOnly(before, after.value, p, v.value)))
  {
    var before := OneByOne(pod, os, apply).value;
    assert (os + [o])[..|os + [o]| - 1] == os;
    if NoneNamed(before, o.containerName) { FindsNone(before, o.containerName); }
    if IsFirstNamed(before, p, o.containerName) {
      FindsFirst(before, p, o.containerName);
      var v := apply(Get(before, p).value, o.op);
      if v.Ok? { ReplaceChangesOnly(before, p, v.value); }
    }
  }

  lemma FindsNone<V>(pod: PodSpec<V>, name: string)
    requires NoneNamed(pod, name)
    ensures Find(pod, name) == None
  {
    FirstNamedIs(pod.initContainers, name, |pod.initContainers|);
    FirstNamedIs(pod.containers, name, |pod.containers|);
  }

  lemma FindsFirst<V>(pod: PodSpec<V>, p: Place, name: string)
    requires IsFirstNamed(pod, p, name)
    ensures Find(pod, name) == Some(p)
  {
    FirstNamedIs(pod.initContainers, name, if p.Init? then p.index else |pod.initContainers|);
    if p.Main? { FirstNamedIs(pod.containers, name, p.index); }
  }

  function Current<V>(pod: PodSpec<V>, patches: map<Place, V>, p: Place): V
    requires At(pod, p)
  {
    if p in patches then patches[p] else Get(pod, p).value
  }

  /** Patches listed in any order, applied in that order. */
  function Replay<V>(pod: PodSpec<V>, patches: seq<(Place, V)>): (r: PodSpec<V>)
    requires forall i :: 0 <= i < |patches| ==> At(pod, patches[i].0)
    ensures forall p :: At(r, p) <==> At(pod, p)
    decreases |patches|
  {
    if patches == [] then pod
    else Replace(Replay(pod, patches[..|patches| - 1]), patches[|patches| - 1].0, patches[|patches| - 1].1)
  }

  ghost predicate Lists<V(!new)>(patches: seq<(Place, V)>, m: map<Place, V>) {
    && (forall i, j :: 0 <= i < j < |patches| ==> patches[i].0 != patches[j].0)
    && (forall p, v :: (p, v) in patches <==> p in m && m[p] == v)
  }

  ghost predicate Patched<V(!new)>(pod: PodSpec<V>, patches: map<Place, V>, pod': PodSpec<V>) {
    && |pod'.initContainers| == |pod.initContainers| && |pod'.containers| == |pod.containers|
    && (forall p :: p in patches ==> At(pod, p))
    && (forall p :: At(pod, p) ==> Get(pod', p) == Get(pod, p).(value := Current(pod, patches, p)))
  }

  /** `path` is the path of one of the places. */
  ghost predicate LeadsTo<V>(path: string, places: map<Place, V>, podSpec: string, target: string) {
    exists p :: p in places && TargetPath(podSpec, p, target) == path
  }

  /** `patchMap` holds the patches of `places`, each under the path of its container. */
  ghost predicate Spelled<V(!new)>(patchMap: map<string, V>, places: map<Place, V>, podSpec: string, target: string) {
    && (forall p :: p in places ==>
          TargetPath(podSpec, p, target) in patchMap && patchMap[TargetPath(podSpec, p, target)] == places[p])
    && (forall path :: path in patchMap ==> LeadsTo(path, places, podSpec, target))
  }

  lemma SpelledMore<V(!new)>(patchMap: map<string, V>, places: map<Place, V>, podSpec: string, target: string,
                               p: Place, v: V)
    requires Spelled(patchMap, places, podSpec, target)
    ensures Spelled(patchMap[TargetPath(podSpec, p, target) := v], places[p := v], podSpec, target)
    ensures TargetPath(podSpec, p, target) in patchMap <==> p in places
  {
    forall q { PathsIdentifyContainers(podSpec, p, q, target); }
    var path := TargetPath(podSpec, p, target);
    var more, morePlaces := patchMap[path := v], places[p := v];
    forall other | other in more ensures LeadsTo(other, morePlaces, podSpec, target)
    {
      if other == path {
        assert p in morePlaces;
      } else {
        assert LeadsTo(other, places, podSpec, target);
        var q :| q in places && TargetPath(podSpec, q, target) == other;
        assert q in morePlaces;
      }
    }
  }

  /** What the loop over the overriders has batched so far. */
  ghost predicate Batched<V(!new), O>(pod: PodSpec<V>, os: seq<Overrider<O>>, apply: (V, O) -> Result<V>,
                                      places: map<Place, V>, patchMap: map<string, V>, podSpec: string, target: string)
  {
    && OneByOne(pod, os, apply).Ok?
    && Patched(pod, places, OneByOne(pod, os, apply).value)
    && Spelled(patchMap, places, podSpec, target)
  }

  /** One overrider on the pod spec reached so far, in terms of the original pod spec and the batch. */
  lemma BatchedStep<V(!new), O>(pod: PodSpec<V>, os: seq<Overrider<O>>, k: nat, apply: (V, O) -> Result<V>,
      places: map<Place, V>, patchMap: map<string, V>, podSpec: string, target: string)
    requires k < |os| && Batched(pod, os[..k], apply, places, patchMap, podSpec, target)
    ensures var p := Find(pod, os[k].containerName);
            if p.None? then Batched(pod, os[..k + 1], apply, places, patchMap, podSpec, target)
            else
              var path := TargetPath(podSpec, p.value, target);
              var v := apply(if path in patchMap then patchMap[path] else Get(pod, p.value).value, os[k].op);
              if v.Err? then OneByOne(pod, os, apply).Err?
              else
                var (more, moreMap) := (places[p.value := v.value], patchMap[path := v.value]);
                Batched(pod, os[..k + 1], apply, more, moreMap, podSpec, target)
  {
    assert os[..k + 1][..k] == os[..k];
    var o, before := os[k], OneByOne(pod, os[..k], apply).value;
    PatchedFind(pod, places, before, o.containerName);
    var p := Find(pod, o.containerName);
    if p.Some? {
      var current := Current(pod, places, p.value);
      var v := apply(current, o.op);
      SpelledMore(patchMap, places, podSpec, target, p.value, if v.Ok? then v.value else current);
      assert Get(before, p.value).value == current;
      if v.Ok? {
        PatchedMore(pod, places, before, p.value, v.value);
      } else {
        OneByOneStuck(pod, os, apply, k + 1);
      }
    }
  }

  /** The loop that parseEnvOverriders and parseEntrypointOverriders share; `places` says whose patches they are. */
  method ParseOverriders<V(!new), O>(helper: Helper<V>, target: string, os: seq<Overrider<O>>,
                                            apply: (V, O) -> Result<V>)
    returns (r: Result<map<string, V>>, ghost places: map<Place, V>)
    ensures os == [] ==> r == Ok(map[])
    ensures os != [] ==> (r.Ok? <==> HasPodSpec(helper) && OneByOne(helper.podSpec.value, os, apply).Ok?)
    ensures os != [] && r.Ok? ==>
              && Patched(helper.podSpec.value, places, OneByOne(helper.podSpec.value, os, apply).value)
              && Spelled(r.value, places, helper.podSpecPath.value, target)
  {
    places := map[];
    if |os| == 0 { return Ok(map[]), places; }
    if helper.podSpecPath.None? || helper.podSpec.Err? { return Err, places; }
    var pod := helper.podSpec.value;
    ghost var podSpec := helper.podSpecPath.value;
    var patchMap: map<string, V> := map[];
    for k := 0 to |os|
      invariant Batched(pod, os[..k], apply, places, patchMap, podSpec, target)
    {
      BatchedStep(pod, os, k, apply, places, patchMap, podSpec, target);
      var o := os[k];
      var p := LookForMatchedContainer(pod, o.containerName);
      if p.None? { continue; }
      var targetPath := GenerateTargetPath(helper.podSpecPath, p.value, target);
      if targetPath.Err? { return Err, places; }
      var current := if targetPath.value in patchMap then patchMap[targetPath.value] else Get(pod, p.value).value;
      var v := apply(current, o.op);
      if v.Err? { return Err, places; }
      places := places[p.value := v.value];
      patchMap := patchMap[targetPath.value := v.value];
    }
    assert os[..|os|] == os;
    return Ok(patchMap), places;
  }

  lemma {:induction false} SameNamesFirst<V>(cs: seq<Container<V>>, cs': seq<Container<V>>, name: string)
    requires |cs| == |cs'| && forall i :: 0 <= i < |cs| ==> cs[i].name == cs'[i].name
    ensures FirstNamed(cs, name) == FirstNamed(cs', name)
  {
    if cs != [] { SameNamesFirst(cs[1..], cs'[1..], name); }
  }

  /** Overriding fields changes no container's name, so every overrider keeps finding the same container. */
  lemma PatchedFind<V(!new)>(pod: PodSpec<V>, patches: map<Place, V>, pod': PodSpec<V>, name: string)
    requires Patched(pod, patches, pod')
    ensures Find(pod', name) == Find(pod, name)
  {
    forall i: nat | i < |pod.initContainers| ensures pod.initContainers[i].name == pod'.initContainers[i].name {
      assert At(pod, Init(i)) && Get(pod', Init(i)) == Get(pod, Init(i)).(value := Current(pod, patches, Init(i)));
    }
    forall i: nat | i < |pod.containers| ensures pod.containers[i].name == pod'.containers[i].name {
      assert At(pod, Main(i)) && Get(pod', Main(i)) == Get(pod, Main(i)).(value := Current(pod, patches, Main(i)));
    }
    SameNamesFirst(pod.initContainers, pod'.initContainers, name);
    SameNamesFirst(pod.containers, pod'.containers, name);
  }

  lemma PatchedMore<V(!new)>(pod: PodSpec<V>, patches: map<Place, V>, pod': PodSpec<V>, p: Place, v: V)
    requires Patched(pod, patches, pod') && At(pod, p)
    ensures Patched(pod, patches[p := v], Replace(pod', p, v))
  {
    forall q | At(pod, q)
      ensures Get(Replace(pod', p, v), q) == Get(pod, q).(value := Current(pod, patches[p := v], q))
    {
      assert Get(pod', q) == Get(pod, q).(value := Current(pod, patches, q));
    }
  }

  lemma {:induction false} OneByOneStuck<V, O>(pod: PodSpec<V>, os: seq<Overrider<O>>, apply: (V, O) -> Result<V>,
                                               k: nat)
    requires k <= |os| && OneByOne(pod, os[..k], apply).Err?
    ensures OneByOne(pod, os, apply).Err?
    decreases |os|
  {
    if k < |os| {
      assert os[..|os| - 1][..k] == os[..k];
      OneByOneStuck(pod, os[..|os| - 1], apply, k);
    } else {
      assert os[..k] == os;
    }
  }

  lemma PatchedUnique<V(!new)>(pod: PodSpec<V>, patches: map<Place, V>, a: PodSpec<V>, b: PodSpec<V>)
    requires Patched(pod, patches, a) && Patched(pod, patches, b)
    ensures a == b
  {
    forall i: nat | i < |pod.initContainers| ensures a.initContainers[i] == b.initContainers[i] {
      assert At(pod, Init(i)) && Get(a, Init(i)) == Get(b, Init(i));
    }
    forall i: nat | i < |pod.containers| ensures a.containers[i] == b.containers[i] {
      assert At(pod, Main(i)) && Get(a, Main(i)) == Get(b, Main(i));
    }
    assert a.initContainers == b.initContainers && a.containers == b.containers;
  }

  lemma ListsInit<V(!new)>(patches: seq<(Place, V)>, m: map<Place, V>)
    requires Lists(patches, m) && patches != []
    ensures var (p, v) := patches[|patches| - 1];
            p in m && m[p] == v && Lists(patches[..|patches| - 1], m - {p})
  {
    var init, last := patches[..|patches| - 1], patches[|patches| - 1];
    assert patches == init + [last];
    assert (last.0, last.1) in patches;
    forall p, v ensures (p, v) in init <==> p in m - {last.0} && (m - {last.0})[p] == v {
      assert (p, v) in patches <==> (p, v) in init || (p, v) == last;
      if (p, v) in init {
        var i :| 0 <= i < |init| && init[i] == (p, v);
        assert patches[i].0 != patches[|patches| - 1].0;
      }
    }
  }

  lemma {:induction false} ReplayPatches<V(!new)>(pod: PodSpec<V>, patches: seq<(Place, V)>, m: map<Place, V>)
    requires Lists(patches, m) && forall p :: p in m ==> At(pod, p)
    ensures forall i :: 0 <= i < |patches| ==> At(pod, patches[i].0)
    ensures Patched(pod, m, Replay(pod, patches))
    decreases |patches|
  {
    assert forall p :: p in m ==> (p, m[p]) in patches;
    if patches == [] {
      assert m.Keys == {};
    } else {
      var init, last := patches[..|patches| - 1], patches[|patches| - 1];
      ListsInit(patches, m);
      ReplayPatches(pod, init, m - {last.0});
      forall i | 0 <= i < |patches| ensures At(pod, patches[i].0) {
        if i < |init| { assert init[i] == patches[i]; }
      }
      PatchedMore(pod, m - {last.0}, Replay(pod, init), last.0, last.1);
      assert (m - {last.0})[last.0 := last.1] == m;
    }
  }

  /** Replaying the batched patches, in whatever order they are listed, gives what the overriders give one by one. */
  lemma BatchEqualsSequence<V(!new), O>(pod: PodSpec<V>, os: seq<Overrider<O>>, apply: (V, O) -> Result<V>,
                                               m: map<Place, V>, patches: seq<(Place, V)>)
    requires OneByOne(pod, os, apply).Ok? && Patched(pod, m, OneByOne(pod, os, apply).value) && Lists(patches, m)
    ensures forall i :: 0 <= i < |patches| ==> At(pod, patches[i].0)
    ensures Ok(Replay(pod, patches)) == OneByOne(pod, os, apply)
  {
    ReplayPatches(pod, patches, m);
    PatchedUnique(pod, m, Replay(pod, patches), OneByOne(pod, os, apply).value);
  }

  // ---------- The list of patches ----------

  function PathOf<V>(patch: (string, V)): string { patch.0 }

  /** convertEnvPatchMapToPatches and convertPatchMapToPatches: the patches in ascending order of their paths. */
  method ConvertPatchMap<V(!new, ==)>(patchMap: map<string, V>) returns (patches: seq<(string, V)>)
    ensures StrictlySorted(patches, PathOf)
    ensures forall path, v :: (path, v) in patches <==> path in patchMap && patchMap[path] == v
  {
    patches := [];
    var todo := patchMap.Keys;
    while todo != {}
      invariant todo <= patchMap.Keys && DistinctKeys(patches, PathOf)
      invariant forall path, v :: (path, v) in patches <==> path in patchMap.Keys - todo && patchMap[path] == v
      decreases todo
    {
      var path :| path in todo;
      forall i | 0 <= i < |patches| ensures patches[i].0 != path {
        assert (patches[i].0, patches[i].1) in patches;
      }
      patches := patches + [(path, patchMap[path])];
      todo := todo - {path};
    }
    SortSorted(patches, PathOf);
    forall path, v { SortMembers(patches, PathOf, (path, v)); }
    patches := SortBy(patches, PathOf);
  }

  /** `at` tells, patch by patch, which container each path leads to. */
  ghost predicate Resolves<V(!new)>(patches: seq<(string, V)>, at: seq<(Place, V)>, podSpec: string, target: string) {
    && |at| == |patches|
    && forall i :: 0 <= i < |patches| ==> patches[i] == (TargetPath(podSpec, at[i].0, target), at[i].1)
  }

  lemma {:induction false} PathsResolve<V(!new)>(patches: seq<(string, V)>, places: map<Place, V>,
                                                     podSpec: string, target: string)
    returns (at: seq<(Place, V)>)
    requires forall i :: 0 <= i < |patches| ==> LeadsTo(patches[i].0, places, podSpec, target)
    ensures Resolves(patches, at, podSpec, target)
  {
    if patches == [] {
      at := [];
    } else {
      var n := |patches| - 1;
      assert LeadsTo(patches[n].0, places, podSpec, target);
      var p :| p in places && TargetPath(podSpec, p, target) == patches[n].0;
      var rest := PathsResolve(patches[..n], places, podSpec, target);
      at := rest + [(p, patches[n].1)];
      forall i | 0 <= i < |patches| ensures patches[i] == (TargetPath(podSpec, at[i].0, target), at[i].1) {
        if i < n { assert patches[..n][i] == patches[i] && at[i] == rest[i]; }
      }
    }
  }

  lemma ResolvedLists<V(!new)>(patches: seq<(string, V)>, at: seq<(Place, V)>, patchMap: map<string, V>,
                               places: map<Place, V>, podSpec: string, target: string)
    requires Spelled(patchMap, places, podSpec, target) && Resolves(patches, at, podSpec, target)
    requires StrictlySorted(patches, PathOf)
    requires forall path, v :: (path, v) in patches <==> path in patchMap && patchMap[path] == v
    ensures Lists(at, places)
  {
    forall i, j | 0 <= i < j < |at| ensures at[i].0 != at[j].0 {
      LessTrichotomy(PathOf(patches[i]), PathOf(patches[j]));
    }
    forall p, v ensures (p, v) in at <==> p in places && places[p] == v {
      var path := TargetPath(podSpec, p, target);
      if (p, v) in at {
        var i :| 0 <= i < |at| && at[i] == (p, v);
        assert patches[i] == (path, v) && (path, v) in patches;
        assert LeadsTo(path, places, podSpec, target);
        var q :| q in places && TargetPath(podSpec, q, target) == path;
        PathsIdentifyContainers(podSpec, p, q, target);
      }
      if p in places && places[p] == v {
        assert (path, v) in patches;
        var i :| 0 <= i < |patches| && patches[i] == (path, v);
        PathsIdentifyContainers(podSpec, p, at[i].0, target);
      }
    }
  }

  /** The emitted patches, applied in the order of their paths to the containers their paths lead to, give what the
      overriders give one by one. */
  lemma EmittedPatchesEqualSequence<V(!new), O>(pod: PodSpec<V>, os: seq<Overrider<O>>, apply: (V, O) -> Result<V>,
      podSpec: string, target: string, places: map<Place, V>, patchMap: map<string, V>, patches: seq<(string, V)>)
    returns (at: seq<(Place, V)>)
    requires OneByOne(pod, os, apply).Ok? && Patched(pod, places, OneByOne(pod, os, apply).value)
    requires Spelled(patchMap, places, podSpec, target) && StrictlySorted(patches, PathOf)
    requires forall path, v :: (path, v) in patches <==> path in patchMap && patchMap[path] == v
    ensures Resolves(patches, at, podSpec, target)
    ensures forall i :: 0 <= i < |at| ==> At(pod, at[i].0)
    ensures Ok(Replay(pod, at)) == OneByOne(pod, os, apply)
  {
    forall i | 0 <= i < |patches| ensures LeadsTo(patches[i].0, places, podSpec, target) {
      assert (patches[i].0, patches[i].1) in patches;
    }
    at := PathsResolve(patches, places, podSpec, target);
    ResolvedLists(patches, at, patchMap, places, podSpec, target);
    BatchEqualsSequence(pod, os, apply, places, at);
  }

  // ---------- The two instances ----------

  datatype EnvOp = EnvOp(operator: EnvOverrider.Operator, value: seq<EnvOverrider.EnvVar>)

  function ApplyEnv(value: seq<EnvOverrider.EnvVar>, o: EnvOp): Result<seq<EnvOverrider.EnvVar>> {
    EnvOverrider.Apply(o.operator, value, o.value)
  }

  method ParseEnvOverriders(helper: Helper<seq<EnvOverrider.EnvVar>>, os: seq<Overrider<EnvOp>>)
    returns (r: Result<seq<(string, seq<EnvOverrider.EnvVar>)>>, ghost at: seq<(Place, seq<EnvOverrider.EnvVar>)>)
    ensures os == [] ==> r == Ok([])
    ensures os != [] ==> (r.Ok? <==> HasPodSpec(helper) && OneByOne(helper.podSpec.value, os, ApplyEnv).Ok?)
    ensures os != [] && r.Ok? ==>
              && StrictlySorted(r.value, PathOf) && Resolves(r.value, at, helper.podSpecPath.value, "env")
              && (forall i :: 0 <= i < |at| ==> At(helper.podSpec.value, at[i].0))
              && Ok(Replay(helper.podSpec.value, at)) == OneByOne(helper.podSpec.value, os, ApplyEnv)
  {
    r, at := ParseToPatches(helper, "env", os, ApplyEnv);
  }

  datatype EntrypointOperator = Append | Overwrite | Delete | Unsupported

  datatype EntrypointOp = EntrypointOp(operator: EntrypointOperator, value: seq<string>)

  function Dropped(old': seq<string>, names: seq<string>): seq<string> {
    if old' == [] then []
    else
      var init := Dropped(old'[..|old'| - 1], names);
      if old'[|old'| - 1] in names then init else init + [old'[|old'| - 1]]
  }

  lemma {:induction false} DroppedFilters(old': seq<string>, names: seq<string>)
    ensures Dropped(old', names) == Kept(old', x => x !in names)
  {
    if old' != [] { DroppedFilters(old'[..|old'| - 1], names); }
  }

  function ApplyEntrypoint(old': seq<string>, o: EntrypointOp): Result<seq<string>> {
    match o.operator
    case Append => if o.value == [] then Err else Ok(old' + o.value)
    case Overwrite => Ok(o.value)
    case Delete => Ok(Dropped(old', o.value))
    case Unsupported => Err
  }

  method ApplyEntrypointOverrider(oldValue: seq<string>, o: EntrypointOp) returns (r: Result<seq<string>>)
    ensures r == ApplyEntrypoint(oldValue, o)
    ensures r.Err? <==> o.operator == Unsupported || (o.operator == Append && o.value == [])
    ensures r.Ok? && o.operator == Append ==> r.value == oldValue + o.value
    ensures r.Ok? && o.operator == Overwrite ==> r.value == o.value
    ensures r.Ok? && o.operator == Delete ==> r.value == Kept(oldValue, x => x !in o.value)
  {
    match o.operator {
      case Append => r := if |o.value| == 0 then Err else Ok(oldValue + o.value);
      case Overwrite => r := Ok(o.value);
      case Delete =>
        var names := set x | x in o.value;
        var newValue: seq<string> := [];
        DroppedFilters(oldValue, o.value);
        for i := 0 to |oldValue|
          invariant newValue == Dropped(oldValue[..i], o.value)
        {
          assert oldValue[..i + 1][..i] == oldValue[..i];
          if oldValue[i] !in names { newValue := newValue + [oldValue[i]]; }
        }
        assert oldValue[..|oldValue|] == oldValue;
        r := Ok(newValue);
      case Unsupported => r := Err;
    }
  }

  /** `target` is the field, command or args. */
  method ParseEntrypointOverriders(helper: Helper<seq<string>>, os: seq<Overrider<EntrypointOp>>, target: string)
    returns (r: Result<seq<(string, seq<string>)>>, ghost at: seq<(Place, seq<string>)>)
    ensures os == [] ==> r == Ok([])
    ensures os != [] ==> (r.Ok? <==> HasPodSpec(helper) && OneByOne(helper.podSpec.value, os, ApplyEntrypoint).Ok?)
    ensures os != [] && r.Ok? ==>
              && StrictlySorted(r.value, PathOf) && Resolves(r.value, at, helper.podSpecPath.value, target)
              && (forall i :: 0 <= i < |at| ==> At(helper.podSpec.value, at[i].0))
              && Ok(Replay(helper.podSpec.value, at)) == OneByOne(helper.podSpec.value, os, ApplyEntrypoint)
  {
    r, at := ParseToPatches(helper, target, os, ApplyEntrypoint);
  }

  /** Both parsers: batch the overriders, then list the patches. */
  method ParseToPatches<V(!new, ==), O>(helper: Helper<V>, target: string, os: seq<Overrider<O>>,
                                        apply: (V, O) -> Result<V>)
    returns (r: Result<seq<(string, V)>>, ghost at: seq<(Place, V)>)
    ensures os == [] ==> r == Ok([])
    ensures os != [] ==> (r.Ok? <==> HasPodSpec(helper) && OneByOne(helper.podSpec.value, os, apply).Ok?)
    ensures os != [] && r.Ok? ==>
              && StrictlySorted(r.value, PathOf) && Resolves(r.value, at, helper.podSpecPath.value, target)
              && (forall i :: 0 <= i < |at| ==> At(helper.podSpec.value, at[i].0))
              && Ok(Replay(helper.podSpec.value, at)) == OneByOne(helper.podSpec.value, os, apply)
  {
    at := [];
    if |os| == 0 { return Ok([]), at; }
    var parsed;
    ghost var places;
    parsed, places := ParseOverriders(helper, target, os, apply);
    if parsed.Err? { return Err, at; }
    var patches := ConvertPatchMap(parsed.value);
    at := EmittedPatchesEqualSequence(helper.podSpec.value, os, apply, helper.podSpecPath.value, target, places,
        parsed.value, patches);
    return Ok(patches), at;
  }
}
