/** The order in which a cluster's override patches are applied (`pkg/controllers/sync/resource.go`): by the position of
    their controller in the FederatedTypeConfig, unknown controllers last and in their original order. */
module OverrideOrder {
  import PC = PendingControllers

  type Name = string

  datatype ClusterPatches<P> = ClusterPatches(cluster: string, patches: seq<P>)

  datatype Entry<P> = Entry(controller: Name, overrides: seq<ClusterPatches<P>>)

  type Order = map<Name, nat>

  // ---------- Positions of controllers ----------

  /** `order` numbers the controllers of `flat` from 0. */
  ghost predicate Numbers(order: Order, flat: seq<Name>) {
    (forall c :: c in order <==> c in flat) && forall i :: 0 <= i < |flat| ==> flat[i] in order && order[flat[i]] == i
  }

  lemma NumbersSnoc(order: Order, done: seq<Name>, c: Name)
    requires Numbers(order, done) && c !in done
    ensures Numbers(order[c := |done|], done + [c])
  {
    forall i | 0 <= i < |done + [c]|
      ensures (done + [c])[i] in order[c := |done|] && order[c := |done|][(done + [c])[i]] == i
    {
      if i < |done| { assert done[i] in done && done[i] != c; }
    }
  }

  method NumberGroup(order: Order, ghost done: seq<Name>, group: seq<Name>) returns (more: Order)
    requires Numbers(order, done) && |order| == |done| && PC.NoDuplicates(done + group)
    ensures Numbers(more, done + group) && |more| == |done + group|
  {
    more := order;
    for j := 0 to |group|
      invariant Numbers(more, done + group[..j]) && |more| == |done| + j
    {
      var c := group[j];
      assert c !in done + group[..j] by {
        assert (done + group)[|done| + j] == c && (done + group)[..|done| + j] == done + group[..j];
      }
      NumbersSnoc(more, done + group[..j], c);
      assert c !in more;
      more := more[c := |more|];
      assert done + group[..j] + [c] == done + group[..j + 1];
    }
    assert group[..|group|] == group;
  }

  lemma NextGroup(groups: PC.Groups, i: nat, done: seq<Name>, flat: seq<Name>)
    requires i < |groups| && flat == done + PC.Flatten(groups[i..]) && PC.NoDuplicates(flat)
    ensures flat == done + groups[i] + PC.Flatten(groups[i + 1..])
    ensures PC.NoDuplicates(done + groups[i])
  {
    assert groups[i..][1..] == groups[i + 1..];
    assert done + groups[i] == flat[..|done + groups[i]|];
  }

  method ControllerOrder(groups: PC.Groups) returns (order: Order)
    requires PC.Distinct(groups)
    ensures Numbers(order, PC.Flatten(groups))
  {
    order := map[];
    ghost var done: seq<Name>, flat := [], PC.Flatten(groups);
    FlattenDistinct(groups);
    for i := 0 to |groups|
      invariant done + PC.Flatten(groups[i..]) == flat
      invariant Numbers(order, done) && |order| == |done|
    {
      NextGroup(groups, i, done, flat);
      order := NumberGroup(order, done, groups[i]);
      done := done + groups[i];
    }
  }

  lemma {:induction false} FlattenDistinct(groups: PC.Groups)
    requires PC.Distinct(groups)
    ensures PC.NoDuplicates(PC.Flatten(groups))
  {
    if groups != [] {
      FlattenDistinct(groups[1..]);
      var a, b := groups[0], PC.Flatten(groups[1..]);
      forall i, j | 0 <= i < j < |a + b| ensures (a + b)[i] != (a + b)[j] {
        if i < |a| <= j { assert (a + b)[j] in b; }
      }
    }
  }

  // ---------- The comparator ----------

  /** The function given to sort.SliceStable. */
  predicate Precedes(order: Order, lhs: Name, rhs: Name) {
    if lhs !in order then false
    else if rhs !in order then true
    else order[lhs] < order[rhs]
  }

  function Rank(order: Order, n: nat, c: Name): nat {
    if c in order then order[c] else n
  }

  /** The comparator compares ranks, so it is a strict weak order: irreflexive, transitive, and with a transitive
      incomparability. */
  lemma ComparatorIsStrictWeakOrder(order: Order, flat: seq<Name>, a: Name, b: Name, c: Name)
    requires Numbers(order, flat)
    ensures Precedes(order, a, b) <==> Rank(order, |flat|, a) < Rank(order, |flat|, b)
    ensures !Precedes(order, a, a)
    ensures Precedes(order, a, b) && Precedes(order, b, c) ==> Precedes(order, a, c)
    ensures !Precedes(order, a, b) && !Precedes(order, b, a) && !Precedes(order, b, c) && !Precedes(order, c, b) ==>
              !Precedes(order, a, c) && !Precedes(order, c, a)
  {
    forall x | x in order ensures order[x] < |flat| {
      var i :| 0 <= i < |flat| && flat[i] == x;
      assert order[flat[i]] == i;
    }
  }

  // ---------- Stable sorting ----------

  function OfRank<P>(order: Order, n: nat, xs: seq<Entry<P>>, r: nat): seq<Entry<P>> {
    if xs == [] then []
    else
      var rest := OfRank(order, n, xs[1..], r);
      if Rank(order, n, xs[0].controller) == r then [xs[0]] + rest else rest
  }

  /** `ys` is what a stable sort by the comparator makes of `xs`: nothing out of order, and entries the comparator does
      not separate in their original order. */
  ghost predicate StablySorted<P>(order: Order, n: nat, xs: seq<Entry<P>>, ys: seq<Entry<P>>) {
    && (forall i, j :: 0 <= i < j < |ys| ==> !Precedes(order, ys[j].controller, ys[i].controller))
    && (forall r: nat :: OfRank(order, n, ys, r) == OfRank(order, n, xs, r))
  }

  function ByRank<P>(order: Order, n: nat, xs: seq<Entry<P>>, lo: nat, hi: nat): seq<Entry<P>>
    requires lo <= hi
    decreases hi - lo
  {
    if lo == hi then [] else OfRank(order, n, xs, lo) + ByRank(order, n, xs, lo + 1, hi)
  }

  lemma {:induction false} OfRankNone<P>(order: Order, n: nat, xs: seq<Entry<P>>, r: nat)
    requires forall x :: x in xs ==> Rank(order, n, x.controller) != r
    ensures OfRank(order, n, xs, r) == []
  {
    if xs != [] { OfRankNone(order, n, xs[1..], r); }
  }

  lemma {:induction false} ByRankHead<P>(order: Order, n: nat, x: Entry<P>, xs: seq<Entry<P>>, lo: nat, hi: nat)
    requires lo <= hi && Rank(order, n, x.controller) < lo
    ensures ByRank(order, n, [x] + xs, lo, hi) == ByRank(order, n, xs, lo, hi)
    decreases hi - lo
  {
    if lo < hi {
      assert ([x] + xs)[1..] == xs;
      ByRankHead(order, n, x, xs, lo + 1, hi);
    }
  }

  lemma {:induction false} SortedIsByRank<P>(order: Order, n: nat, ys: seq<Entry<P>>, lo: nat, hi: nat)
    requires lo <= hi && forall y :: y in ys ==> lo <= Rank(order, n, y.controller) < hi
    requires forall i, j :: 0 <= i < j < |ys| ==> Rank(order, n, ys[i].controller) <= Rank(order, n, ys[j].controller)
    ensures ys == ByRank(order, n, ys, lo, hi)
    decreases hi - lo, |ys|
  {
    assert |ys| > 0 ==> ys[0] in ys;
    if lo == hi {
    } else if ys != [] && Rank(order, n, ys[0].controller) == lo {
      SortedIsByRank(order, n, ys[1..], lo, hi);
      ByRankHead(order, n, ys[0], ys[1..], lo + 1, hi);
      assert ys == [ys[0]] + ys[1..];
    } else {
      forall y | y in ys ensures Rank(order, n, y.controller) != lo {
        var i :| 0 <= i < |ys| && ys[i] == y;
      }
      OfRankNone(order, n, ys, lo);
      SortedIsByRank(order, n, ys, lo + 1, hi);
    }
  }

  lemma {:induction false} ByRankSame<P>(order: Order, n: nat, xs: seq<Entry<P>>, ys: seq<Entry<P>>, lo: nat, hi: nat)
    requires lo <= hi && forall r: nat :: OfRank(order, n, xs, r) == OfRank(order, n, ys, r)
    ensures ByRank(order, n, xs, lo, hi) == ByRank(order, n, ys, lo, hi)
    decreases hi - lo
  {
    if lo < hi { ByRankSame(order, n, xs, ys, lo + 1, hi); }
  }

  /** The stable sort has one possible result: the groups of equal rank, one after the other. */
  lemma StableSortUnique<P>(order: Order, flat: seq<Name>, xs: seq<Entry<P>>, ys: seq<Entry<P>>)
    requires Numbers(order, flat) && StablySorted(order, |flat|, xs, ys)
    ensures ys == ByRank(order, |flat|, xs, 0, |flat| + 1)
  {
    forall a, b ensures Precedes(order, a, b) <==> Rank(order, |flat|, a) < Rank(order, |flat|, b) {
      ComparatorIsStrictWeakOrder(order, flat, a, b, a);
    }
    forall y | y in ys ensures Rank(order, |flat|, y.controller) < |flat| + 1 {
      if y.controller in order { var i :| 0 <= i < |flat| && flat[i] == y.controller; assert order[flat[i]] == i; }
    }
    SortedIsByRank(order, |flat|, ys, 0, |flat| + 1);
    ByRankSame(order, |flat|, ys, xs, 0, |flat| + 1);
  }

  // ---------- Merging per cluster ----------

  function PatchesFor<P>(overrides: seq<ClusterPatches<P>>, cluster: string): seq<P> {
    if overrides == [] then []
    else PatchesFor(overrides[..|overrides| - 1], cluster) +
         (if overrides[|overrides| - 1].cluster == cluster then overrides[|overrides| - 1].patches else [])
  }

  function Merged<P>(entries: seq<Entry<P>>, cluster: string): seq<P> {
    if entries == [] then []
    else Merged(entries[..|entries| - 1], cluster) + PatchesFor(entries[|entries| - 1].overrides, cluster)
  }

  function InMap<P>(m: map<string, seq<P>>, c: string): seq<P> {
    if c in m then m[c] else []
  }

  function Append<P>(m: map<string, seq<P>>, o: ClusterPatches<P>): map<string, seq<P>> {
    m[o.cluster := InMap(m, o.cluster) + o.patches]
  }

  lemma AppendStep<P>(m: map<string, seq<P>>, m': map<string, seq<P>>, overrides: seq<ClusterPatches<P>>, j: nat,
                      c: string)
    requires j < |overrides| && InMap(m', c) == InMap(m, c) + PatchesFor(overrides[..j], c)
    ensures InMap(Append(m', overrides[j]), c) == InMap(m, c) + PatchesFor(overrides[..j + 1], c)
  {
    var before, more := PatchesFor(overrides[..j], c), if overrides[j].cluster == c then overrides[j].patches else [];
    assert PatchesFor(overrides[..j + 1], c) == before + more by { assert overrides[..j + 1][..j] == overrides[..j]; }
    assert InMap(Append(m', overrides[j]), c) == InMap(m', c) + more;
    Associative(InMap(m, c), before, more);
  }

  lemma Associative<P>(a: seq<P>, b: seq<P>, c: seq<P>)
    ensures (a + b) + c == a + (b + c)
  {}

  method AddEntry<P>(m: map<string, seq<P>>, overrides: seq<ClusterPatches<P>>) returns (m': map<string, seq<P>>)
    ensures forall c :: InMap(m', c) == InMap(m, c) + PatchesFor(overrides, c)
  {
    m' := m;
    for j := 0 to |overrides|
      invariant forall c :: InMap(m', c) == InMap(m, c) + PatchesFor(overrides[..j], c)
    {
      forall c ensures InMap(Append(m', overrides[j]), c) == InMap(m, c) + PatchesFor(overrides[..j + 1], c) {
        AppendStep(m, m', overrides, j, c);
      }
      m' := Append(m', overrides[j]);
    }
    assert overrides[..|overrides|] == overrides;
  }

  /** The loop that fills overridesMap from the sorted entries. */
  method MergeInOrder<P>(entries: seq<Entry<P>>) returns (m: map<string, seq<P>>)
    ensures forall c :: InMap(m, c) == Merged(entries, c)
  {
    m := map[];
    for i := 0 to |entries|
      invariant forall c :: InMap(m, c) == Merged(entries[..i], c)
    {
      assert entries[..i + 1][..i] == entries[..i];
      m := AddEntry(m, entries[i].overrides);
    }
    assert entries[..|entries|] == entries;
  }

  lemma {:induction false} MergedConcat<P>(a: seq<Entry<P>>, b: seq<Entry<P>>, cluster: string)
    ensures Merged(a + b, cluster) == Merged(a, cluster) + Merged(b, cluster)
    decreases |b|
  {
    if b == [] {
      assert a + b == a;
    } else {
      MergedConcat(a, b[..|b| - 1], cluster);
      assert (a + b)[..|a + b| - 1] == a + b[..|b| - 1];
      Associative(Merged(a, cluster), Merged(b[..|b| - 1], cluster), PatchesFor(b[|b| - 1].overrides, cluster));
    }
  }

  // ---------- The result in terms of the FederatedTypeConfig ----------

  /** The entries of one controller, in the order of the object. */
  function From<P>(xs: seq<Entry<P>>, controller: Name): seq<Entry<P>> {
    if xs == [] then []
    else if xs[0].controller == controller then [xs[0]] + From(xs[1..], controller)
    else From(xs[1..], controller)
  }

  function FromUnknown<P>(xs: seq<Entry<P>>, flat: seq<Name>): seq<Entry<P>> {
    if xs == [] then []
    else if xs[0].controller !in flat then [xs[0]] + FromUnknown(xs[1..], flat)
    else FromUnknown(xs[1..], flat)
  }

  function KnownPatches<P>(xs: seq<Entry<P>>, flat: seq<Name>, cluster: string): seq<P> {
    if flat == [] then [] else Merged(From(xs, flat[0]), cluster) + KnownPatches(xs, flat[1..], cluster)
  }

  lemma {:induction false} OfRankIsFrom<P>(order: Order, flat: seq<Name>, xs: seq<Entry<P>>, r: nat)
    requires Numbers(order, flat) && r <= |flat|
    ensures OfRank(order, |flat|, xs, r) == if r < |flat| then From(xs, flat[r]) else FromUnknown(xs, flat)
  {
    if xs != [] {
      OfRankIsFrom(order, flat, xs[1..], r);
      var c := xs[0].controller;
      if c in order {
        var i :| 0 <= i < |flat| && flat[i] == c;
        assert order[flat[i]] == i;
      }
    }
  }

  lemma {:induction false} MergedByRank<P>(order: Order, flat: seq<Name>, xs: seq<Entry<P>>, lo: nat, cluster: string)
    requires Numbers(order, flat) && lo <= |flat|
    ensures Merged(ByRank(order, |flat|, xs, lo, |flat| + 1), cluster) ==
            KnownPatches(xs, flat[lo..], cluster) + Merged(FromUnknown(xs, flat), cluster)
    decreases |flat| - lo
  {
    var n := |flat|;
    var head, rest := OfRank(order, n, xs, lo), ByRank(order, n, xs, lo + 1, n + 1);
    OfRankIsFrom(order, flat, xs, lo);
    assert ByRank(order, n, xs, lo, n + 1) == head + rest;
    if lo == n {
      assert head + rest == head;
      assert flat[lo..] == [];
    } else {
      MergedByRank(order, flat, xs, lo + 1, cluster);
      MergedConcat(head, rest, cluster);
      assert flat[lo..][1..] == flat[lo + 1..];
      Associative(Merged(head, cluster), KnownPatches(xs, flat[lo + 1..], cluster),
          Merged(FromUnknown(xs, flat), cluster));
    }
  }

  /** A cluster's patches are those of the known controllers in FTC order, then those of unknown controllers in their
      original order. */
  lemma ClusterPatchesInFtcOrder<P>(order: Order, flat: seq<Name>, xs: seq<Entry<P>>, ys: seq<Entry<P>>,
                                    cluster: string)
    requires Numbers(order, flat) && StablySorted(order, |flat|, xs, ys)
    ensures Merged(ys, cluster) == KnownPatches(xs, flat, cluster) + Merged(FromUnknown(xs, flat), cluster)
  {
    StableSortUnique(order, flat, xs, ys);
    MergedByRank(order, flat, xs, 0, cluster);
    assert flat[0..] == flat;
  }

  ghost predicate OneEntryEach<P>(xs: seq<Entry<P>>, flat: seq<Name>) {
    forall c :: c in flat ==> |From(xs, c)| <= 1
  }

  lemma {:induction false} FromMember<P>(xs: seq<Entry<P>>, c: Name, x: Entry<P>)
    ensures x in From(xs, c) <==> x in xs && x.controller == c
  {
    if xs != [] { FromMember(xs[1..], c, x); }
  }

  lemma {:induction false} KnownPatchesSame<P>(xs: seq<Entry<P>>, xs': seq<Entry<P>>, flat: seq<Name>, cluster: string)
    requires forall c :: c in flat ==> From(xs, c) == From(xs', c)
    ensures KnownPatches(xs, flat, cluster) == KnownPatches(xs', flat, cluster)
  {
    if flat != [] { KnownPatchesSame(xs, xs', flat[1..], cluster); }
  }

  /** Moving known controllers' entries about, one entry for each controller, does not change what any cluster gets. */
  lemma PermutationIrrelevant<P>(order: Order, flat: seq<Name>, xs: seq<Entry<P>>, xs': seq<Entry<P>>,
                                 ys: seq<Entry<P>>, ys': seq<Entry<P>>, cluster: string)
    requires Numbers(order, flat) && StablySorted(order, |flat|, xs, ys) && StablySorted(order, |flat|, xs', ys')
    requires OneEntryEach(xs, flat) && OneEntryEach(xs', flat)
    requires (forall x :: x in xs <==> x in xs') && FromUnknown(xs, flat) == FromUnknown(xs', flat)
    ensures Merged(ys, cluster) == Merged(ys', cluster)
  {
    ClusterPatchesInFtcOrder(order, flat, xs, ys, cluster);
    ClusterPatchesInFtcOrder(order, flat, xs', ys', cluster);
    forall c | c in flat ensures From(xs, c) == From(xs', c) {
      SameOnlyEntry(xs, xs', c);
    }
    KnownPatchesSame(xs, xs', flat, cluster);
  }

  lemma SameOnlyEntry<P>(xs: seq<Entry<P>>, xs': seq<Entry<P>>, c: Name)
    requires |From(xs, c)| <= 1 && |From(xs', c)| <= 1 && forall x :: x in xs <==> x in xs'
    ensures From(xs, c) == From(xs', c)
  {
    var a, b := From(xs, c), From(xs', c);
    if a != [] { FromMember(xs, c, a[0]); FromMember(xs', c, a[0]); }
    if b != [] { FromMember(xs, c, b[0]); FromMember(xs', c, b[0]); }
  }

  // ---------- The whole of overridesForCluster ----------

  function Insert<P>(order: Order, x: Entry<P>, ys: seq<Entry<P>>): seq<Entry<P>> {
    if ys == [] || !Precedes(order, ys[0].controller, x.controller) then [x] + ys
    else [ys[0]] + Insert(order, x, ys[1..])
  }

  function SliceStable<P>(order: Order, xs: seq<Entry<P>>): seq<Entry<P>> {
    if xs == [] then [] else Insert(order, xs[0], SliceStable(order, xs[1..]))
  }

  ghost predicate InOrder<P>(order: Order, ys: seq<Entry<P>>) {
    forall i, j :: 0 <= i < j < |ys| ==> !Precedes(order, ys[j].controller, ys[i].controller)
  }

  lemma {:induction false} InsertStable<P>(order: Order, flat: seq<Name>, x: Entry<P>, ys: seq<Entry<P>>, r: nat)
    requires Numbers(order, flat) && InOrder(order, ys)
    ensures OfRank(order, |flat|, Insert(order, x, ys), r) ==
            (if Rank(order, |flat|, x.controller) == r then [x] else []) + OfRank(order, |flat|, ys, r)
    ensures forall y :: y in Insert(order, x, ys) <==> y == x || y in ys
    ensures InOrder(order, Insert(order, x, ys))
  {
    forall a, b ensures Precedes(order, a, b) <==> Rank(order, |flat|, a) < Rank(order, |flat|, b) {
      ComparatorIsStrictWeakOrder(order, flat, a, b, a);
    }
    if ys == [] || !Precedes(order, ys[0].controller, x.controller) {
      assert ([x] + ys)[1..] == ys;
    } else {
      InsertStable(order, flat, x, ys[1..], r);
      var rest := Insert(order, x, ys[1..]);
      assert ([ys[0]] + rest)[1..] == rest;
      forall j | 0 <= j < |rest| ensures !Precedes(order, rest[j].controller, ys[0].controller) {
        assert rest[j] in rest;
      }
    }
  }

  lemma {:induction false} SliceStableSorts<P>(order: Order, flat: seq<Name>, xs: seq<Entry<P>>)
    requires Numbers(order, flat)
    ensures StablySorted(order, |flat|, xs, SliceStable(order, xs))
  {
    if xs != [] {
      SliceStableSorts(order, flat, xs[1..]);
      forall r: nat ensures OfRank(order, |flat|, SliceStable(order, xs), r) == OfRank(order, |flat|, xs, r) {
        InsertStable(order, flat, xs[0], SliceStable(order, xs[1..]), r);
      }
      InsertStable(order, flat, xs[0], SliceStable(order, xs[1..]), 0);
    }
  }

  method OverridesForCluster<P>(groups: PC.Groups, entries: seq<Entry<P>>, cluster: string) returns (patches: seq<P>)
    requires PC.Distinct(groups)
    ensures patches == KnownPatches(entries, PC.Flatten(groups), cluster) +
        Merged(FromUnknown(entries, PC.Flatten(groups)), cluster)
  {
    var order := ControllerOrder(groups);
    var sorted := SliceStable(order, entries);
    SliceStableSorts(order, PC.Flatten(groups), entries);
    ClusterPatchesInFtcOrder(order, PC.Flatten(groups), entries, sorted, cluster);
    var m := MergeInOrder(sorted);
    patches := InMap(m, cluster);
  }
}
