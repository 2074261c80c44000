/** The env overrider (`pkg/controllers/override/envspatch.go`): an index from names to positions, kept beside the
    list it describes, against what each operator means for the list. */
module EnvOverrider {
  import opened Filters
  import opened Wrappers

  /** An environment variable; `content` stands for its value or value source. */
  datatype EnvVar = EnvVar(name: string, content: string)

  datatype Operator = Unset | AddIfAbsent | Overwrite | Delete | Unsupported

  type Index = map<string, seq<nat>>

  // ---------- The index ----------

  /** `positions` are the places of `name` in `value`, in ascending order. */
  ghost predicate PositionsOf(value: seq<EnvVar>, name: string, positions: seq<nat>) {
    && (forall i, j :: 0 <= i < j < |positions| ==> positions[i] < positions[j])
    && (forall p: nat :: p in positions <==> p < |value| && value[p].name == name)
  }

  predicate Has(value: seq<EnvVar>, name: string) {
    exists i :: 0 <= i < |value| && value[i].name == name
  }

  ghost predicate IsIndex(m: Index, value: seq<EnvVar>) {
    && (forall n :: n in m <==> Has(value, n))
    && (forall n :: n in m ==> PositionsOf(value, n, m[n]))
  }

  lemma IndexSnoc(m: Index, value: seq<EnvVar>, env: EnvVar)
    requires IsIndex(m, value)
    ensures IsIndex(m[env.name := (if env.name in m then m[env.name] else []) + [|value|]], value + [env])
  {
    var value' := value + [env];
    var m' := m[env.name := (if env.name in m then m[env.name] else []) + [|value|]];
    forall n ensures n in m' <==> Has(value', n) {
      if n == env.name { assert value'[|value|].name == n; }
      if Has(value, n) {
        var i :| 0 <= i < |value| && value[i].name == n;
        assert value'[i].name == n;
      }
    }
    forall n | n in m' ensures PositionsOf(value', n, m'[n]) {
      assert n in m ==> PositionsOf(value, n, m[n]);
      forall i | n in m && 0 <= i < |m[n]| ensures m[n][i] < |value| { assert m[n][i] in m[n]; }
      forall p: nat ensures p in m'[n] <==> p < |value'| && value'[p].name == n {
        assert n !in m && p < |value| ==> value[p].name != n;
      }
    }
  }

  method BuildIndex(value: seq<EnvVar>) returns (m: Index)
    ensures IsIndex(m, value)
  {
    m := map[];
    for i := 0 to |value|
      invariant IsIndex(m, value[..i])
    {
      IndexSnoc(m, value[..i], value[i]);
      assert value[..i] + [value[i]] == value[..i + 1];
      m := m[value[i].name := (if value[i].name in m then m[value[i].name] else []) + [i]];
    }
    assert value[..|value|] == value;
  }

  // ---------- What one override entry does ----------

  function Without(value: seq<EnvVar>, names: set<string>): seq<EnvVar> {
    if value == [] then []
    else
      var init := Without(value[..|value| - 1], names);
      if value[|value| - 1].name in names then init else init + [value[|value| - 1]]
  }

  function Overwritten(value: seq<EnvVar>, env: EnvVar): (r: seq<EnvVar>)
    ensures |r| == |value|
    ensures forall i :: 0 <= i < |value| ==> r[i] == if value[i].name == env.name then env else value[i]
  {
    seq(|value|, i requires 0 <= i < |value| => if value[i].name == env.name then env else value[i])
  }

  function Step(op: Operator, value: seq<EnvVar>, env: EnvVar): Result<seq<EnvVar>> {
    match op
    case AddIfAbsent => if Has(value, env.name) then Err else Ok(value + [env])
    case Overwrite => Ok(Overwritten(value, env))
    case Delete => Ok(Without(value, {env.name}))
    case _ => Err
  }

  /** The entries one after the other, in order; the last entry is applied last. */
  function Steps(op: Operator, value: seq<EnvVar>, envs: seq<EnvVar>): Result<seq<EnvVar>> {
    if envs == [] then Ok(value)
    else
      var r := Steps(op, value, envs[..|envs| - 1]);
      if r.Err? then Err else Step(op, r.value, envs[|envs| - 1])
  }

  function Effective(op: Operator): Operator {
    if op == Unset then Overwrite else op
  }

  function Apply(op: Operator, value: seq<EnvVar>, envs: seq<EnvVar>): Result<seq<EnvVar>> {
    if op == AddIfAbsent && envs == [] then Err else Steps(Effective(op), value, envs)
  }

  // ---------- applyEnvOverrider ----------

  /** Copies everything but the given positions: the stretches between them, then the rest. */
  method RemoveAt(value: seq<EnvVar>, name: string, indexes: seq<nat>) returns (kept: seq<EnvVar>)
    requires PositionsOf(value, name, indexes) && indexes != []
    ensures kept == Without(value, {name})
  {
    kept := [];
    var start, lastIndex := 0, 0;
    for k := 0 to |indexes|
      invariant start <= |value|
      invariant k == 0 ==> start == 0
      invariant k > 0 ==> lastIndex == indexes[k - 1] && start == lastIndex + 1
      invariant kept == Without(value[..start], {name})
    {
      var index := indexes[k];
      assert indexes[k] in indexes;
      for i := start to index
        invariant kept == Without(value[..i], {name})
      {
        BetweenPositions(value, name, indexes, k, i);
        assert value[..i + 1][..i] == value[..i];
        kept := kept + [value[i]];
      }
      assert value[..index + 1][..index] == value[..index];
      start := index + 1;
      lastIndex := index;
    }
    assert indexes[|indexes| - 1] in indexes;
    forall i: nat | lastIndex < i < |value| ensures value[i].name != name {
      assert i !in indexes;
    }
    WithoutSuffix(value, name, lastIndex + 1);
    if lastIndex != |value| - 1 {
      kept := kept + value[lastIndex + 1..];
    } else {
      assert value[..lastIndex + 1] == value;
    }
  }

  lemma BetweenPositions(value: seq<EnvVar>, name: string, indexes: seq<nat>, k: nat, i: nat)
    requires PositionsOf(value, name, indexes) && k < |indexes| && i < indexes[k] <= |value|
    requires k > 0 ==> indexes[k - 1] < i
    requires i < |value|
    ensures value[i].name != name
  {
    forall j | 0 <= j < |indexes| ensures indexes[j] != i {
      if j < k { assert indexes[j] <= indexes[k - 1]; } else { assert indexes[k] <= indexes[j]; }
    }
    assert i !in indexes;
  }

  lemma {:induction false} WithoutSuffix(value: seq<EnvVar>, name: string, from: nat)
    requires from <= |value| && forall i :: from <= i < |value| ==> value[i].name != name
    ensures Without(value, {name}) == Without(value[..from], {name}) + value[from..]
    decreases |value|
  {
    if from < |value| {
      var init := value[..|value| - 1];
      WithoutSuffix(init, name, from);
      assert init[..from] == value[..from] && init[from..] + [value[|value| - 1]] == value[from..];
    } else {
      assert value[..from] == value;
    }
  }

  lemma WithoutAbsent(value: seq<EnvVar>, name: string)
    requires !Has(value, name)
    ensures Without(value, {name}) == value
  {
    WithoutSuffix(value, name, 0);
    assert value[..0] == [];
  }

  method ApplyEnvOverrider(value: seq<EnvVar>, op: Operator, envs: seq<EnvVar>) returns (r: Result<seq<EnvVar>>)
    ensures r == Apply(op, value, envs)
  {
    var operator := if op == Unset then Overwrite else op;
    if operator == AddIfAbsent && |envs| == 0 { return Err; }
    var current := value;
    var mapValue := BuildIndex(current);
    for k := 0 to |envs|
      invariant Steps(operator, value, envs[..k]) == Ok(current)
      invariant IsIndex(mapValue, current)
    {
      var env := envs[k];
      assert envs[..k + 1][..k] == envs[..k];
      if operator == Unsupported {
        StepsStuck(operator, value, envs, k + 1);
        return Err;
      }
      if operator == AddIfAbsent && env.name in mapValue {
        StepsStuck(operator, value, envs, k + 1);
        return Err;
      }
      current, mapValue := ApplyEntry(operator, current, mapValue, env);
    }
    assert envs[..|envs|] == envs;
    return Ok(current);
  }

  /** The body of the loop over the overrider's entries, once the error cases are out of the way. */
  method ApplyEntry(op: Operator, value: seq<EnvVar>, m: Index, env: EnvVar) returns (value': seq<EnvVar>, m': Index)
    requires IsIndex(m, value)
    requires op == Overwrite || op == Delete || (op == AddIfAbsent && env.name !in m)
    ensures Step(op, value, env) == Ok(value')
    ensures IsIndex(m', value')
  {
    value', m' := value, m;
    match op {
      case AddIfAbsent =>
        IndexSnoc(m, value, env);
        value' := value + [env];
        m' := m[env.name := [|value|]];
        assert [] + [|value|] == [|value|];
      case Overwrite =>
        if env.name in m {
          var indexes := m[env.name];
          for k := 0 to |indexes|
            invariant |value'| == |value|
            invariant forall i :: 0 <= i < |value| ==> value'[i] == if i in indexes[..k] then env else value[i]
          {
            assert indexes[k] in indexes;
            value' := value'[indexes[k] := env];
            assert indexes[..k + 1] == indexes[..k] + [indexes[k]];
          }
          assert indexes[..|indexes|] == indexes;
        }
        assert value' == Overwritten(value, env);
        SameNamesSameIndex(m, value, value');
      case Delete =>
        if env.name in m {
          var i :| 0 <= i < |value| && value[i].name == env.name;
          assert i in m[env.name];
          value' := RemoveAt(value, env.name, m[env.name]);
          m' := BuildIndex(value');
        } else {
          WithoutAbsent(value, env.name);
        }
    }
  }

  lemma SameNamesSameIndex(m: Index, value: seq<EnvVar>, value': seq<EnvVar>)
    requires IsIndex(m, value) && |value| == |value'| && forall i :: 0 <= i < |value| ==>
        value[i].name == value'[i].name
    ensures IsIndex(m, value')
  {
    forall n ensures Has(value, n) <==> Has(value', n) {
      if Has(value, n) { var i :| 0 <= i < |value| && value[i].name == n; assert value'[i].name == n; }
      if Has(value', n) { var i :| 0 <= i < |value'| && value'[i].name == n; assert value[i].name == n; }
    }
    forall n | n in m ensures PositionsOf(value', n, m[n]) {
      assert PositionsOf(value, n, m[n]);
      forall p: nat ensures p in m[n] <==> p < |value'| && value'[p].name == n {}
    }
  }

  lemma {:induction false} StepsStuck(op: Operator, value: seq<EnvVar>, envs: seq<EnvVar>, k: nat)
    requires k <= |envs| && Steps(op, value, envs[..k]).Err?
    ensures Steps(op, value, envs).Err?
    decreases |envs|
  {
    if k < |envs| {
      assert envs[..|envs| - 1][..k] == envs[..k];
      StepsStuck(op, value, envs[..|envs| - 1], k);
    } else {
      assert envs[..k] == envs;
    }
  }

  // ---------- What the three operators mean for the whole list ----------

  function Names(envs: seq<EnvVar>): set<string> {
    set i | 0 <= i < |envs| :: envs[i].name
  }

  lemma NamesSnoc(envs: seq<EnvVar>, env: EnvVar)
    ensures Names(envs + [env]) == Names(envs) + {env.name}
  {
    var all := envs + [env];
    forall n | n in Names(envs) + {env.name} ensures n in Names(all) {
      if n == env.name { assert all[|envs|].name == n; } else {
        var i :| 0 <= i < |envs| && envs[i].name == n;
        assert all[i].name == n;
      }
    }
  }

  lemma {:induction false} WithoutTwice(value: seq<EnvVar>, a: set<string>, b: set<string>)
    ensures Without(Without(value, a), b) == Without(value, a + b)
  {
    if value != [] {
      var init, last := value[..|value| - 1], value[|value| - 1];
      WithoutTwice(init, a, b);
      if last.name !in a {
        var w := Without(init, a) + [last];
        assert w[..|w| - 1] == Without(init, a);
      }
    }
  }

  lemma {:induction false} WithoutNothing(value: seq<EnvVar>)
    ensures Without(value, {}) == value
  {
    if value != [] { WithoutNothing(value[..|value| - 1]); }
  }

  /** No entry of the overrider names the variable. */
  predicate Unlisted(envs: seq<EnvVar>, x: EnvVar) {
    forall i :: 0 <= i < |envs| ==> envs[i].name != x.name
  }

  lemma {:induction false} NamesFilter(value: seq<EnvVar>, envs: seq<EnvVar>)
    ensures Without(value, Names(envs)) == Kept(value, x => Unlisted(envs, x))
  {
    if value != [] { NamesFilter(value[..|value| - 1], envs); }
  }

  /** Delete filters the list: every variable with a listed name goes, the others stay in order. */
  lemma {:induction false} DeleteFilters(value: seq<EnvVar>, envs: seq<EnvVar>)
    ensures Apply(Delete, value, envs) == Ok(Without(value, Names(envs)))
    ensures Without(value, Names(envs)) == Kept(value, x => Unlisted(envs, x))
  {
    NamesFilter(value, envs);
    if envs == [] {
      WithoutNothing(value);
      assert Names(envs) == {};
    } else {
      var init, last := envs[..|envs| - 1], envs[|envs| - 1];
      DeleteFilters(value, init);
      NamesSnoc(init, last);
      assert init + [last] == envs;
      WithoutTwice(value, Names(init), {last.name});
    }
  }

  /** The override for a name that counts: the last one in the list. */
  function LastFor(envs: seq<EnvVar>, name: string): Option<EnvVar> {
    if envs == [] then None
    else if envs[|envs| - 1].name == name then Some(envs[|envs| - 1])
    else LastFor(envs[..|envs| - 1], name)
  }

  function OverwriteAll(value: seq<EnvVar>, envs: seq<EnvVar>): seq<EnvVar> {
    seq(|value|, i requires 0 <= i < |value| =>
      var o := LastFor(envs, value[i].name);
      if o.Some? then o.value else value[i])
  }

  lemma {:induction false} LastForName(envs: seq<EnvVar>, name: string)
    ensures LastFor(envs, name).Some? ==> LastFor(envs, name).value.name == name
    ensures LastFor(envs, name).Some? <==> exists k :: 0 <= k < |envs| && envs[k].name == name
  {
    if envs != [] { LastForName(envs[..|envs| - 1], name); }
  }

  /** The last override in the list with this name. */
  predicate IsLastFor(envs: seq<EnvVar>, name: string, k: int) {
    0 <= k < |envs| && envs[k].name == name && forall j :: k < j < |envs| ==> envs[j].name != name
  }

  lemma {:induction false} LastForIs(envs: seq<EnvVar>, name: string, k: nat)
    requires IsLastFor(envs, name, k)
    ensures LastFor(envs, name) == Some(envs[k])
  {
    if k < |envs| - 1 { LastForIs(envs[..|envs| - 1], name, k); }
  }

  /** Overwrite never adds or moves a variable, and where several overrides name one variable the last wins. */
  lemma {:induction false} OverwriteMaps(value: seq<EnvVar>, envs: seq<EnvVar>)
    ensures Apply(Overwrite, value, envs) == Ok(OverwriteAll(value, envs))
    ensures Apply(Unset, value, envs) == Ok(OverwriteAll(value, envs))
    ensures forall i, k :: 0 <= i < |value| && IsLastFor(envs, value[i].name, k) ==>
              OverwriteAll(value, envs)[i] == envs[k]
    ensures forall i :: 0 <= i < |value| && (forall k :: 0 <= k < |envs| ==> envs[k].name != value[i].name) ==>
              OverwriteAll(value, envs)[i] == value[i]
  {
    forall i, k | 0 <= i < |value| && IsLastFor(envs, value[i].name, k) { LastForIs(envs, value[i].name, k); }
    forall i | 0 <= i < |value| { LastForName(envs, value[i].name); }
    if envs == [] {
      assert OverwriteAll(value, envs) == value;
    } else {
      var init, last := envs[..|envs| - 1], envs[|envs| - 1];
      OverwriteMaps(value, init);
      var before := OverwriteAll(value, init);
      forall i | 0 <= i < |value| ensures Overwritten(before, last)[i] == OverwriteAll(value, envs)[i] {
        LastForName(init, value[i].name);
      }
      assert Overwritten(before, last) == OverwriteAll(value, envs);
    }
  }

  ghost predicate AllNew(value: seq<EnvVar>, envs: seq<EnvVar>) {
    && (forall i :: 0 <= i < |envs| ==> !Has(value, envs[i].name))
    && (forall i, j :: 0 <= i < j < |envs| ==> envs[i].name != envs[j].name)
  }

  lemma {:induction false} AddSteps(value: seq<EnvVar>, envs: seq<EnvVar>)
    ensures Steps(AddIfAbsent, value, envs) == if AllNew(value, envs) then Ok(value + envs) else Err
  {
    if envs == [] {
      assert value + envs == value;
    } else {
      var init, last := envs[..|envs| - 1], envs[|envs| - 1];
      AddSteps(value, init);
      assert value + init + [last] == value + envs;
      assert Has(value + init, last.name) <==> Has(value, last.name) || last.name in Names(init) by {
        var all := value + init;
        if Has(value, last.name) {
          var i :| 0 <= i < |value| && value[i].name == last.name;
          assert all[i].name == last.name;
        }
        if last.name in Names(init) {
          var i :| 0 <= i < |init| && init[i].name == last.name;
          assert all[|value| + i].name == last.name;
        }
        if Has(all, last.name) {
          var i :| 0 <= i < |all| && all[i].name == last.name;
          if i < |value| { assert value[i].name == last.name; } else { assert init[i - |value|].name == last.name; }
        }
      }
      if AllNew(value, envs) {
        assert AllNew(value, init);
      } else if AllNew(value, init) {
        assert !Has(value, last.name) ==> exists i :: 0 <= i < |init| && envs[i].name == last.name;
      }
    }
  }

  /** AddIfAbsent succeeds exactly for a non-empty list of distinct new names, and then appends it. */
  lemma AddAppends(value: seq<EnvVar>, envs: seq<EnvVar>)
    ensures Apply(AddIfAbsent, value, envs) == if envs != [] && AllNew(value, envs) then Ok(value + envs) else Err
  {
    AddSteps(value, envs);
  }

  /** An unsupported operator is only noticed when there is an entry to apply it to. */
  lemma UnsupportedNeedsAnEntry(value: seq<EnvVar>, envs: seq<EnvVar>)
    ensures Apply(Unsupported, value, envs) == if envs == [] then Ok(value) else Err
  {
    if envs != [] { StepsStuck(Unsupported, value, envs, 1); assert envs[..1][..0] == []; }
  }
}
