/** Placements and overrides of a federated object, kept per controller
    (`pkg/apis/core/v1alpha1/extensions_federatedobject.go`). */
module ControllerEntries {
  import opened Ordering

  datatype Owned<T> = Owned(controller: string, items: seq<T>)

  datatype Raw = Int(n: int) | OtherText(text: string)
  datatype Patch = Patch(op: string, path: string, value: Raw)
  datatype ClusterPatches = ClusterPatches(cluster: string, patches: seq<Patch>)

  function ClusterOf(p: ClusterPatches): string { p.cluster }

  predicate Apart<T>(s: seq<Owned<T>>, i: int, j: int)
    requires 0 <= i < j < |s|
  {
    s[i].controller != s[j].controller
  }

  predicate OnePerController<T>(s: seq<Owned<T>>) {
    forall i, j :: 0 <= i < j < |s| ==> Apart(s, i, j)
  }

  predicate Owns<T>(s: seq<Owned<T>>, controller: string) {
    exists i :: 0 <= i < |s| && s[i].controller == controller
  }

  /** The first entry of a controller, or -1. */
  function Find<T>(s: seq<Owned<T>>, controller: string): (i: int)
    ensures -1 <= i < |s|
    ensures i >= 0 ==> s[i].controller == controller && forall k :: 0 <= k < i ==> s[k].controller != controller
    ensures i == -1 <==> !Owns(s, controller)
  {
    if s == [] then -1
    else if s[0].controller == controller then 0
    else
      var i := Find(s[1..], controller);
      assert forall k :: 1 <= k < |s| ==> s[k] == s[1..][k - 1];
      if i == -1 then -1 else i + 1
  }

  function Items<T>(s: seq<Owned<T>>, controller: string): seq<T> {
    var i := Find(s, controller); if i == -1 then [] else s[i].items
  }

  function Without<T>(s: seq<Owned<T>>, controller: string): seq<Owned<T>> {
    var i := Find(s, controller); if i == -1 then s else s[..i] + s[i + 1..]
  }

  function With<T>(s: seq<Owned<T>>, controller: string, items: seq<T>): seq<Owned<T>> {
    var i := Find(s, controller);
    if items == [] then Without(s, controller)
    else if i == -1 then s + [Owned(controller, items)]
    else s[i := Owned(controller, items)]
  }

  /** Once one entry is known to be the first of its controller, Find finds it. */
  lemma FindIs<T>(s: seq<Owned<T>>, controller: string, i: nat)
    requires i < |s| && s[i].controller == controller && forall k :: 0 <= k < i ==> s[k].controller != controller
    ensures Find(s, controller) == i
  {
    assert Owns(s, controller);
  }

  /** What the three operations do where `i` is the first entry of the controller: read it, take it out, replace it. */
  lemma AtFirstEntry<T>(s: seq<Owned<T>>, controller: string, items: seq<T>, i: nat)
    requires i < |s| && s[i].controller == controller && forall k :: 0 <= k < i ==> s[k].controller != controller
    ensures Items(s, controller) == s[i].items
    ensures Without(s, controller) == s[..i] + s[i + 1..]
    ensures With(s, controller, items) == if items == [] then s[..i] + s[i + 1..] else s[i := Owned(controller, items)]
  {
    FindIs(s, controller, i);
  }

  /** And where it has none: there is nothing to read or to take out, and an entry is added at the end. */
  lemma AtNoEntry<T>(s: seq<Owned<T>>, controller: string, items: seq<T>)
    requires forall k :: 0 <= k < |s| ==> s[k].controller != controller
    ensures Items(s, controller) == [] && Without(s, controller) == s
    ensures With(s, controller, items) == if items == [] then s else s + [Owned(controller, items)]
  {
    assert !Owns(s, controller);
  }

  /** Deleting a controller leaves none of its entries exactly when it had at most one: only the first is removed. */
  lemma WithoutOwnsNone<T>(s: seq<Owned<T>>, controller: string)
    ensures Owns(Without(s, controller), controller) <==>
            exists i, j :: 0 <= i < j < |s| && s[i].controller == controller && s[j].controller == controller
  {
    var i, r := Find(s, controller), Without(s, controller);
    if i >= 0 {
      assert forall k :: 0 <= k < |r| ==> r[k] == s[if k < i then k else k + 1];
      if Owns(r, controller) {
        var k :| 0 <= k < |r| && r[k].controller == controller;
        assert s[i].controller == controller && s[k + 1].controller == controller;
      }
      if x, y :| 0 <= x < y < |s| && s[x].controller == controller && s[y].controller == controller {
        assert r[y - 1].controller == controller;
      }
    }
  }

  /** A controller reads back what it set, except when it set nothing and a further entry of its own had items. */
  lemma ItemsAfterWith<T>(s: seq<Owned<T>>, controller: string, items: seq<T>)
    ensures Items(With(s, controller, items), controller) == items <==>
            items != [] || Items(Without(s, controller), controller) == []
  {
    var i, r := Find(s, controller), With(s, controller, items);
    if items != [] { FindIs(r, controller, if i == -1 then |s| else i); }
  }

  /** With one entry per controller there is no further one. */
  lemma OneEntryLeavesNone<T>(s: seq<Owned<T>>, controller: string)
    requires OnePerController(s)
    ensures !Owns(Without(s, controller), controller) && Items(Without(s, controller), controller) == []
  {
    WithoutOwnsNone(s, controller);
    forall i, j | 0 <= i < j < |s| ensures s[i].controller != s[j].controller {
      assert Apart(s, i, j);
    }
  }

  lemma OthersAfterWithout<T>(s: seq<Owned<T>>, controller: string, other: string)
    requires other != controller
    ensures Items(Without(s, controller), other) == Items(s, other)
  {
    var i, o, r := Find(s, controller), Find(s, other), Without(s, controller);
    if i >= 0 {
      assert forall k :: 0 <= k < |r| ==> r[k] == s[if k < i then k else k + 1];
      if o >= 0 {
        FindIs(r, other, if o < i then o else o - 1);
      } else {
        assert !Owns(r, other);
      }
    }
  }

  lemma OthersAfterWrite<T>(s: seq<Owned<T>>, r: seq<Owned<T>>, i: nat, other: string)
    requires i < |r| && |s| <= |r| <= |s| + 1 && r[i].controller != other
    requires i < |s| ==> |r| == |s| && s[i].controller != other
    requires forall k :: 0 <= k < |s| && k != i ==> r[k] == s[k]
    ensures Items(r, other) == Items(s, other)
  {
    var o := Find(s, other);
    if o >= 0 {
      FindIs(r, other, o);
    } else {
      assert forall k :: 0 <= k < |s| ==> s[k].controller != other;
      assert !Owns(r, other);
    }
  }

  /** No other controller's entry is touched. */
  lemma OthersAfterWith<T>(s: seq<Owned<T>>, controller: string, items: seq<T>, other: string)
    requires other != controller
    ensures Items(With(s, controller, items), other) == Items(s, other)
  {
    var i := Find(s, controller);
    if items == [] {
      OthersAfterWithout(s, controller, other);
    } else {
      OthersAfterWrite(s, With(s, controller, items), if i == -1 then |s| else i, other);
    }
  }

  lemma WithKeepsOnePerController<T>(s: seq<Owned<T>>, controller: string, items: seq<T>)
    requires OnePerController(s)
    ensures OnePerController(With(s, controller, items))
  {
    var i, r := Find(s, controller), With(s, controller, items);
    forall j, k | 0 <= j < k < |r| ensures Apart(r, j, k) {
      if items == [] && i >= 0 {
        assert Apart(s, if j < i then j else j + 1, if k < i then k else k + 1);
      } else {
        assert k < |s| ==> Apart(s, j, k);
      }
    }
  }

  /** Setting the same items again changes nothing, except when it deletes a further entry of the controller. */
  lemma WithTwice<T>(s: seq<Owned<T>>, controller: string, items: seq<T>)
    ensures With(With(s, controller, items), controller, items) == With(s, controller, items) <==>
            items != [] || !Owns(Without(s, controller), controller)
  {
    var i, r := Find(s, controller), With(s, controller, items);
    if items != [] {
      FindIs(r, controller, if i == -1 then |s| else i);
    } else if Owns(r, controller) {
      assert |Without(r, controller)| == |r| - 1;
    }
  }

  class Spec {
    var placements: seq<Owned<string>>
    var overrides: seq<Owned<ClusterPatches>>

    constructor (placements: seq<Owned<string>>, overrides: seq<Owned<ClusterPatches>>)
      ensures this.placements == placements && this.overrides == overrides
    {
      this.placements, this.overrides := placements, overrides;
    }

    method GetPlacementUnion() returns (clusters: set<string>)
      ensures clusters == set p, c | p in placements && c in p.items :: c
    {
      clusters := {};
      for i := 0 to |placements|
        invariant clusters == set p, c | p in placements[..i] && c in p.items :: c
      {
        var items, before := placements[i].items, clusters;
        for j := 0 to |items|
          invariant clusters == before + set c | c in items[..j]
        {
          clusters := clusters + {items[j]};
        }
        assert placements[..i + 1] == placements[..i] + [placements[i]];
        assert items[..|items|] == items;
      }
      assert placements[..|placements|] == placements;
    }

    method GetControllerPlacement(controller: string) returns (clusters: seq<string>)
      ensures clusters == Items(placements, controller)
    {
      var i := IndexOf(placements, controller);
      return if i == -1 then [] else placements[i].items;
    }

    /** The entry holds the names in ascending order, whatever order they come in. The flag is exact. */
    method SetControllerPlacement(controller: string, names: seq<string>) returns (changed: bool)
      modifies this`placements
      ensures placements == With(old(placements), controller, SortBy(names, Self))
      ensures changed <==> placements != old(placements)
    {
      SortContents(names, Self);
      if |names| == 0 {
        changed := DeleteControllerPlacement(controller);
        return;
      }
      var entry := Owned(controller, SortBy(names, Self));
      var i := IndexOf(placements, controller);
      if i == -1 {
        placements := placements + [entry];
        return true;
      }
      if entry != placements[i] {
        placements := placements[i := entry];
        return true;
      }
      return false;
    }

    method DeleteControllerPlacement(controller: string) returns (changed: bool)
      modifies this`placements
      ensures placements == Without(old(placements), controller)
      ensures changed <==> placements != old(placements)
    {
      var i := IndexOf(placements, controller);
      if i == -1 { return false; }
      placements := placements[..i] + placements[i + 1..];
      return true;
    }

    method GetControllerOverrides(controller: string) returns (items: seq<ClusterPatches>)
      ensures items == Items(overrides, controller)
    {
      var i := IndexOf(overrides, controller);
      return if i == -1 then [] else overrides[i].items;
    }

    /** `sorted` is what the unstable sort makes of the items: some ascending arrangement of them, the only one if each
        cluster has one item. */
    method SetControllerOverrides(controller: string, items: seq<ClusterPatches>)
      returns (changed: bool, ghost sorted: seq<ClusterPatches>)
      modifies this`overrides
      ensures multiset(sorted) == multiset(items) && WeaklySorted(sorted, ClusterOf)
      ensures DistinctKeys(items, ClusterOf) ==> sorted == SortBy(items, ClusterOf)
      ensures overrides == With(old(overrides), controller, sorted)
      ensures changed <==> overrides != old(overrides)
    {
      SortContents(items, ClusterOf);
      SortWeaklySorted(items, ClusterOf);
      sorted := SortBy(items, ClusterOf);
      if |items| == 0 {
        changed := DeleteControllerOverrides(controller);
        return;
      }
      var entry := Owned(controller, SortBy(items, ClusterOf));
      var i := IndexOf(overrides, controller);
      changed := i == -1 || entry != overrides[i];
      if i == -1 {
        overrides := overrides + [entry];
      } else if entry != overrides[i] {
        overrides := overrides[i := entry];
      }
    }

    method DeleteControllerOverrides(controller: string) returns (changed: bool)
      modifies this`overrides
      ensures overrides == Without(old(overrides), controller)
      ensures changed <==> overrides != old(overrides)
    {
      var i := IndexOf(overrides, controller);
      if i == -1 { return false; }
      overrides := overrides[..i] + overrides[i + 1..];
      return true;
    }
  }

  method IndexOf<T>(s: seq<Owned<T>>, controller: string) returns (index: int)
    ensures index == Find(s, controller)
  {
    for i := 0 to |s|
      invariant forall k :: 0 <= k < i ==> s[k].controller != controller
    {
      if s[i].controller == controller {
        FindIs(s, controller, i);
        return i;
      }
    }
    return -1;
  }
}
