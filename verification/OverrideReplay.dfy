/** Compiling override policies into one patch list per cluster (`pkg/controllers/override/util.go`,
    `pkg/controllers/override/overridepolicy_controller.go`): every rule is parsed against the template as the rules
    before it left it. */
module OverrideReplay {
  import opened Filters
  import opened Wrappers

  datatype Patch<V> = Patch(op: string, path: string, value: V)

  const FINALIZERS_PATH := "/metadata/finalizers"

  predicate IsFinalizerPatch<V>(p: Patch<V>) {
    FINALIZERS_PATH <= p.path
  }

  function IgnoreFinalizerPatches<V>(ps: seq<Patch<V>>): seq<Patch<V>> {
    if ps == [] then []
    else
      var init := IgnoreFinalizerPatches(ps[..|ps| - 1]);
      if IsFinalizerPatch(ps[|ps| - 1]) then init else init + [ps[|ps| - 1]]
  }

  /** The parts this model takes as given: whether a rule targets a cluster, what patches a rule's overriders come to
      for an object, and one JSON patch operation (section 4 of RFC 6902). */
  datatype Library<!O, !R, !V> = Library(
    matches: (R, string) -> Result<bool>,
    parse: (O, R) -> Result<seq<Patch<V>>>,
    applyOne: (O, Patch<V>) -> Result<O>)

  /** Sequential application of a patch document (section 3 of RFC 6902). */
  function ApplyAll<O, R, V>(lib: Library<O, R, V>, o: O, ps: seq<Patch<V>>): Result<O> {
    if ps == [] then Ok(o)
    else
      var r := ApplyAll(lib, o, ps[..|ps| - 1]);
      if r.Err? then Err else lib.applyOne(r.value, ps[|ps| - 1])
  }

  /** How far one cluster has got: the working copy of the template (absent until a rule matched) and the
      patches so far. */
  datatype Progress<O, V> = Progress(helper: Option<O>, patches: seq<Patch<V>>)

  function Start<O, V>(): Progress<O, V> { Progress(None, []) }

  function WorkingCopy<O, V>(template: Result<O>, p: Progress<O, V>): Result<O> {
    if p.helper.Some? then Ok(p.helper.value) else template
  }

  function OneRule<O, R, V>(lib: Library<O, R, V>, template: Result<O>, cluster: string, p: Progress<O, V>, rule: R)
    : Result<Progress<O, V>>
  {
    var matched := lib.matches(rule, cluster);
    if matched.Err? then Err
    else if !matched.value then Ok(p)
    else
      var copy := WorkingCopy(template, p);
      if copy.Err? then Err
      else
        var ps := lib.parse(copy.value, rule);
        if ps.Err? then Err
        else
          var next := ApplyAll(lib, copy.value, IgnoreFinalizerPatches(ps.value));
          if next.Err? then Err else Ok(Progress(Some(next.value), p.patches + ps.value))
  }

  function Walk<O, R, V>(lib: Library<O, R, V>, template: Result<O>, cluster: string, p: Progress<O, V>, rules: seq<R>)
    : Result<Progress<O, V>>
  {
    if rules == [] then Ok(p)
    else
      var r := Walk(lib, template, cluster, p, rules[..|rules| - 1]);
      if r.Err? then Err else OneRule(lib, template, cluster, r.value, rules[|rules| - 1])
  }

  lemma {:induction false} IgnoreFilters<V>(ps: seq<Patch<V>>)
    ensures IgnoreFinalizerPatches(ps) == Kept(ps, (p: Patch<V>) => !("/metadata/finalizers" <= p.path))
  {
    if ps != [] { IgnoreFilters(ps[..|ps| - 1]); }
  }

  // ---------- The loops ----------

  method FilterFinalizerPatches<V>(ps: seq<Patch<V>>) returns (kept: seq<Patch<V>>)
    ensures kept == IgnoreFinalizerPatches(ps)
    ensures kept == Kept(ps, (p: Patch<V>) => !("/metadata/finalizers" <= p.path))
  {
    kept := [];
    IgnoreFilters(ps);
    for i := 0 to |ps|
      invariant kept == IgnoreFinalizerPatches(ps[..i])
    {
      assert ps[..i + 1][..i] == ps[..i];
      if IsFinalizerPatch(ps[i]) { continue; }
      kept := kept + [ps[i]];
    }
    assert ps[..|ps|] == ps;
  }

  /** The loop over one policy's rules for one cluster. */
  method RulesForCluster<O, R, V>(lib: Library<O, R, V>, template: Result<O>, cluster: string, helper: Option<O>,
                                  rules: seq<R>)
    returns (r: Result<Progress<O, V>>)
    ensures r == Walk(lib, template, cluster, Progress(helper, []), rules)
  {
    var p := Progress(helper, []);
    for i := 0 to |rules|
      invariant Walk(lib, template, cluster, Progress(helper, []), rules[..i]) == Ok(p)
    {
      assert rules[..i + 1][..i] == rules[..i];
      var next := Rule(lib, template, cluster, p, rules[i]);
      if next.Err? {
        WalkStuck(lib, template, cluster, Progress(helper, []), rules, i + 1);
        return Err;
      }
      p := next.value;
    }
    assert rules[..|rules|] == rules;
    return Ok(p);
  }

  method Rule<O, R, V>(lib: Library<O, R, V>, template: Result<O>, cluster: string, p: Progress<O, V>, rule: R)
    returns (r: Result<Progress<O, V>>)
    ensures r == OneRule(lib, template, cluster, p, rule)
  {
    var matched := lib.matches(rule, cluster);
    if matched.Err? { return Err; }
    if !matched.value { return Ok(p); }
    var copy := if p.helper.Some? then Ok(p.helper.value) else template;
    if copy.Err? { return Err; }
    var ps := lib.parse(copy.value, rule);
    if ps.Err? { return Err; }
    var kept := FilterFinalizerPatches(ps.value);
    var next := ApplyAll(lib, copy.value, kept);
    if next.Err? { return Err; }
    return Ok(Progress(Some(next.value), p.patches + ps.value));
  }

  function PatchesOf<V>(m: map<string, seq<Patch<V>>>, c: string): seq<Patch<V>> {
    if c in m then m[c] else []
  }

  function HelperOf<O>(m: map<string, O>, c: string): Option<O> {
    if c in m then Some(m[c]) else None
  }

  /** parseOverrides for one policy; `helpers` is carried from policy to policy. */
  method ParseOverrides<O, R, V(!new)>(lib: Library<O, R, V>, template: Result<O>, clusters: seq<string>, rules: seq<R>,
                                       helpers: map<string, O>)
    returns (ok: bool, overrides: map<string, seq<Patch<V>>>, helpers': map<string, O>)
    requires forall i, j :: 0 <= i < j < |clusters| ==> clusters[i] != clusters[j]
    ensures ok <==> forall c :: c in clusters ==> Walk(lib, template, c, Progress(HelperOf(helpers, c), []), rules).Ok?
    ensures ok ==> forall c :: c in clusters ==>
              Walk(lib, template, c, Progress(HelperOf(helpers, c), []),
                  rules) == Ok(Progress(HelperOf(helpers', c), PatchesOf(overrides, c)))
  {
    ok, overrides, helpers' := true, map[], helpers;
    for i := 0 to |clusters|
      invariant ok
      invariant forall c :: c in overrides ==> c in clusters[..i]
      invariant forall c :: c !in clusters[..i] ==> HelperOf(helpers', c) == HelperOf(helpers, c)
      invariant forall c :: c in clusters[..i] ==>
                  Walk(lib, template, c, Progress(HelperOf(helpers, c), []),
                      rules) == Ok(Progress(HelperOf(helpers', c), PatchesOf(overrides, c)))
    {
      var c := clusters[i];
      assert c !in clusters[..i];
      var r := RulesForCluster(lib, template, c, HelperOf(helpers', c), rules);
      assert c in clusters;
      if r.Err? { return false, map[], helpers'; }
      WalkHelper(lib, template, c, Progress(HelperOf(helpers, c), []), rules);
      if r.value.helper.Some? { helpers' := helpers'[c := r.value.helper.value]; }
      if |r.value.patches| > 0 { overrides := overrides[c := r.value.patches]; }
      assert clusters[..i + 1] == clusters[..i] + [c];
    }
    assert clusters[..|clusters|] == clusters;
  }

  method MergeOverrides<V(!new)>(dest: map<string, seq<Patch<V>>>, src: map<string, seq<Patch<V>>>)
    returns (merged: map<string, seq<Patch<V>>>)
    ensures forall c :: PatchesOf(merged, c) == PatchesOf(dest, c) + PatchesOf(src, c)
  {
    merged := dest;
    var todo := src.Keys;
    while todo != {}
      invariant todo <= src.Keys
      invariant forall c :: PatchesOf(merged, c) == PatchesOf(dest, c) + if c in src.Keys - todo then src[c] else []
      decreases todo
    {
      var c :| c in todo;
      todo := todo - {c};
      merged := merged[c := PatchesOf(merged, c) + src[c]];
    }
  }

  function Flatten<R>(policies: seq<seq<R>>): seq<R> {
    if policies == [] then [] else Flatten(policies[..|policies| - 1]) + policies[|policies| - 1]
  }

  /** All policies for all placed clusters: each cluster's list is what walking all the rules in order collects. */
  method ComputeOverrides<O, R, V(!new)>(lib: Library<O, R, V>, template: Result<O>, clusters: seq<string>,
                                         policies: seq<seq<R>>)
    returns (ok: bool, overrides: map<string, seq<Patch<V>>>)
    requires forall i, j :: 0 <= i < j < |clusters| ==> clusters[i] != clusters[j]
    ensures ok <==> forall c :: c in clusters ==> Walk(lib, template, c, Start(), Flatten(policies)).Ok?
    ensures ok ==> forall c :: c in clusters ==>
              Walk(lib, template, c, Start(), Flatten(policies)).Ok? &&
              Walk(lib, template, c, Start(), Flatten(policies)).value.patches == PatchesOf(overrides, c)
  {
    overrides := map[];
    var helpers: map<string, O> := map[];
    for k := 0 to |policies|
      invariant forall c :: c in clusters ==>
                  Walk(lib, template, c, Start(), Flatten(policies[..k])) == Ok(Progress(HelperOf(helpers, c),
                      PatchesOf(overrides, c)))
    {
      assert policies[..k + 1][..k] == policies[..k];
      var before := helpers;
      var parsed;
      ok, parsed, helpers := ParseOverrides(lib, template, clusters, policies[k], helpers);
      forall c | c in clusters
        ensures Walk(lib, template, c, Start(), Flatten(policies[..k + 1])) ==
                var r := Walk(lib, template, c, Progress(HelperOf(before, c), []), policies[k]);
                if r.Err? then Err else Ok(Progress(r.value.helper, PatchesOf(overrides, c) + r.value.patches))
      {
        WalkConcat(lib, template, c, Start(), Flatten(policies[..k]), policies[k]);
        WalkShift(lib, template, c, HelperOf(before, c), PatchesOf(overrides, c), policies[k]);
      }
      if !ok {
        var c :| c in clusters && Walk(lib, template, c, Progress(HelperOf(before, c), []), policies[k]).Err?;
        FlattenStuck(lib, template, c, policies, k + 1);
        return false, map[];
      }
      overrides := MergeOverrides(overrides, parsed);
    }
    assert policies[..|policies|] == policies;
    ok := true;
  }

  // ---------- Lemmas about walking ----------

  lemma {:induction false} WalkStuck<O, R, V>(lib: Library<O, R, V>, template: Result<O>, c: string, p: Progress<O, V>,
                                              rules: seq<R>, k: nat)
    requires k <= |rules| && Walk(lib, template, c, p, rules[..k]).Err?
    ensures Walk(lib, template, c, p, rules).Err?
    decreases |rules|
  {
    if k < |rules| {
      assert rules[..|rules| - 1][..k] == rules[..k];
      WalkStuck(lib, template, c, p, rules[..|rules| - 1], k);
    } else {
      assert rules[..k] == rules;
    }
  }

  lemma {:induction false} WalkConcat<O, R, V>(lib: Library<O, R, V>, template: Result<O>, c: string, p: Progress<O, V>,
                                               a: seq<R>, b: seq<R>)
    ensures Walk(lib, template, c, p, a + b) ==
            var r := Walk(lib, template, c, p, a); if r.Err? then Err else Walk(lib, template, c, r.value, b)
    decreases |b|
  {
    if b == [] {
      assert a + b == a;
    } else {
      var init := b[..|b| - 1];
      WalkConcat(lib, template, c, p, a, init);
      assert (a + b)[..|a + b| - 1] == a + init;
      if Walk(lib, template, c, p, a).Err? { assert Walk(lib, template, c, p, a + init).Err?; }
    }
  }

  /** What was collected before does not influence what is collected next, only the working copy does. */
  lemma {:induction false} WalkShift<O, R, V>(lib: Library<O, R, V>, template: Result<O>, c: string, helper: Option<O>,
                                              prior: seq<Patch<V>>, rules: seq<R>)
    ensures Walk(lib, template, c, Progress(helper, prior), rules) ==
            var r := Walk(lib, template, c, Progress(helper, []), rules);
            if r.Err? then Err else Ok(Progress(r.value.helper, prior + r.value.patches))
    decreases |rules|
  {
    if rules == [] {
      assert prior + [] == prior;
    } else {
      WalkShift(lib, template, c, helper, prior, rules[..|rules| - 1]);
      var r := Walk(lib, template, c, Progress(helper, []), rules[..|rules| - 1]);
      if r.Ok? {
        var copy := WorkingCopy(template, r.value);
        if copy.Ok? {
          var ps := lib.parse(copy.value, rules[|rules| - 1]);
          if ps.Ok? { assert prior + r.value.patches + ps.value == prior + (r.value.patches + ps.value); }
        }
      }
    }
  }

  lemma {:induction false} WalkHelper<O, R, V>(lib: Library<O, R, V>, template: Result<O>, c: string, p: Progress<O, V>,
                                               rules: seq<R>)
    ensures var r := Walk(lib, template, c, p, rules); r.Ok? && p.helper.Some? ==> r.value.helper.Some?
    decreases |rules|
  {
    if rules != [] { WalkHelper(lib, template, c, p, rules[..|rules| - 1]); }
  }

  lemma {:induction false} FlattenStuck<O, R, V>(lib: Library<O, R, V>, template: Result<O>, c: string,
                                                 policies: seq<seq<R>>, k: nat)
    requires k <= |policies| && Walk(lib, template, c, Start<O, V>(), Flatten(policies[..k])).Err?
    ensures Walk(lib, template, c, Start<O, V>(), Flatten(policies)).Err?
    decreases |policies|
  {
    if k < |policies| {
      var init := policies[..|policies| - 1];
      assert init[..k] == policies[..k];
      FlattenStuck(lib, template, c, init, k);
      WalkConcat(lib, template, c, Start<O, V>(), Flatten(init), policies[|policies| - 1]);
    } else {
      assert policies[..k] == policies;
    }
  }

  // ---------- Replay ----------

  lemma {:induction false} IgnoreConcat<V>(a: seq<Patch<V>>, b: seq<Patch<V>>)
    ensures IgnoreFinalizerPatches(a + b) == IgnoreFinalizerPatches(a) + IgnoreFinalizerPatches(b)
    decreases |b|
  {
    if b == [] {
      assert a + b == a;
    } else {
      IgnoreConcat(a, b[..|b| - 1]);
      assert (a + b)[..|a + b| - 1] == a + b[..|b| - 1];
    }
  }

  lemma {:induction false} ApplyConcat<O, R, V>(lib: Library<O, R, V>, o: O, a: seq<Patch<V>>, b: seq<Patch<V>>)
    ensures ApplyAll(lib, o, a + b) ==
            var r := ApplyAll(lib, o, a); if r.Err? then Err else ApplyAll(lib, r.value, b)
    decreases |b|
  {
    if b == [] {
      assert a + b == a;
    } else {
      ApplyConcat(lib, o, a, b[..|b| - 1]);
      assert (a + b)[..|a + b| - 1] == a + b[..|b| - 1];
      if ApplyAll(lib, o, a).Err? { assert ApplyAll(lib, o, a + b[..|b| - 1]).Err?; }
    }
  }

  /** Replaying the collected patches, without the finalizer patches, on the template gives the working copy. */
  ghost predicate Replays<O, R, V>(lib: Library<O, R, V>, template: Result<O>, p: Progress<O, V>) {
    if p.helper.None? then p.patches == []
    else template.Ok? && ApplyAll(lib, template.value, IgnoreFinalizerPatches(p.patches)) == Ok(p.helper.value)
  }

  lemma {:induction false} WalkReplays<O, R, V>(lib: Library<O, R, V>, template: Result<O>, c: string, rules: seq<R>)
    ensures var r := Walk(lib, template, c, Start<O, V>(), rules);
            r.Ok? ==> Replays(lib, template, r.value)
    decreases |rules|
  {
    if rules != [] {
      var init, rule := rules[..|rules| - 1], rules[|rules| - 1];
      WalkReplays(lib, template, c, init);
      var r := Walk(lib, template, c, Start<O, V>(), init);
      if r.Ok? {
        var copy := WorkingCopy(template, r.value);
        if copy.Ok? {
          var ps := lib.parse(copy.value, rule);
          if ps.Ok? {
            IgnoreConcat(r.value.patches, ps.value);
            ApplyConcat(lib, template.value, IgnoreFinalizerPatches(r.value.patches), IgnoreFinalizerPatches(ps.value));
          }
        }
      }
    }
  }

  /** Every matching rule is parsed against exactly the template with the patches of all earlier rules replayed on it,
      across policies; so the merged list means, applied in order, what each rule was written for. */
  lemma RuleSeesReplay<O, R, V>(lib: Library<O, R, V>, template: Result<O>, c: string, rules: seq<R>, k: nat)
    requires k < |rules| && lib.matches(rules[k], c) == Ok(true)
    requires Walk(lib, template, c, Start<O, V>(), rules[..k + 1]).Ok?
    ensures Walk(lib, template, c, Start<O, V>(), rules[..k]).Ok? && template.Ok?
    ensures var before := Walk(lib, template, c, Start<O, V>(), rules[..k]).value.patches;
            var seen := ApplyAll(lib, template.value, IgnoreFinalizerPatches(before));
            && seen.Ok? && lib.parse(seen.value, rules[k]).Ok?
            && Walk(lib, template, c, Start<O, V>(), rules[..k + 1]).value.patches == before +
                lib.parse(seen.value, rules[k]).value
  {
    assert rules[..k + 1][..k] == rules[..k];
    WalkReplays(lib, template, c, rules[..k]);
  }

  /** What one more rule does to one cluster: a rule that does not match adds nothing; one that matches adds all its
      patches, finalizer patches included; and the walk fails at a rule that cannot be matched, or that matches and
      cannot be parsed against the replayed template or applied to it. */
  lemma OneMoreRule<O, R, V>(lib: Library<O, R, V>, template: Result<O>, c: string, rules: seq<R>, k: nat)
    requires k < |rules| && Walk(lib, template, c, Start<O, V>(), rules[..k]).Ok?
    ensures var before := Walk(lib, template, c, Start<O, V>(), rules[..k]).value.patches;
            var after := Walk(lib, template, c, Start<O, V>(), rules[..k + 1]);
            var seen := if template.Err? then Err
                        else ApplyAll(lib, template.value, IgnoreFinalizerPatches(before));
            match lib.matches(rules[k], c)
            case Err => after.Err?
            case Ok(false) => after.Ok? && after.value.patches == before
            case Ok(true) =>
              if seen.Err? || lib.parse(seen.value, rules[k]).Err? then after.Err?
              else
                var ps := lib.parse(seen.value, rules[k]).value;
                && (after.Ok? <==> ApplyAll(lib, seen.value, IgnoreFinalizerPatches(ps)).Ok?)
                && (after.Ok? ==> after.value.patches == before + ps)
  {
    assert rules[..k + 1][..k] == rules[..k];
    WalkReplays(lib, template, c, rules[..k]);
  }

  /** A patch document is applied operation by operation, from the first to the last. */
  lemma ApplyInOrder<O, R, V>(lib: Library<O, R, V>, o: O, first: Patch<V>, rest: seq<Patch<V>>)
    ensures ApplyAll(lib, o, []) == Ok(o)
    ensures ApplyAll(lib, o, [first] + rest) ==
            var r := lib.applyOne(o, first); if r.Err? then Err else ApplyAll(lib, r.value, rest)
  {
    ApplyConcat(lib, o, [first], rest);
    assert [first][..0] == [];
  }
}
