/** CopySubmap (`pkg/util/annotation/submap.go`): make the matched part of one map equal to that of another. */
module Submap {
  import opened Wrappers

  type StringMap = map<string, string>

  /** A Go map variable, which may be nil. */
  type NilableMap = Option<StringMap>

  function Entries(m: NilableMap): StringMap {
    if m.Some? then m.value else map[]
  }

  /** `dest` with its matched keys replaced by those of `src`. */
  function Replaced(src: StringMap, dest: StringMap, matcher: string -> bool): StringMap {
    map k | k in src.Keys + dest.Keys && (if matcher(k) then k in src else k in dest) :: if matcher(k) then src[k]
        else dest[k]
  }

  function Lookup(m: StringMap, k: string): Option<string> {
    if k in m then Some(m[k]) else None
  }

  function Changed(src: StringMap, dest: StringMap, matcher: string -> bool): set<string> {
    set k | k in src.Keys + dest.Keys && matcher(k) && Lookup(src, k) != Lookup(dest, k)
  }

  /** The first loop: the matched keys of `src` are set. */
  method SetMatched(src: StringMap, dest: NilableMap, matcher: string -> bool)
    returns (newDest: NilableMap, ghost changed: set<string>, numChanges: nat)
    ensures forall k :: Lookup(Entries(newDest), k) ==
              if k in src && matcher(k) then Lookup(src, k) else Lookup(Entries(dest), k)
    ensures newDest.None? <==> dest.None? && forall k :: k in src ==> !matcher(k)
    ensures changed == set k | k in src && matcher(k) && Lookup(src, k) != Lookup(Entries(dest), k)
    ensures numChanges == |changed|
  {
    newDest, changed, numChanges := dest, {}, 0;
    var todo := src.Keys;
    while todo != {}
      invariant todo <= src.Keys
      invariant forall k :: Lookup(Entries(newDest), k) == if k in src && k !in todo && matcher(k) then Lookup(src, k)
          else Lookup(Entries(dest), k)
      invariant newDest.None? <==> dest.None? && forall k :: k in src && k !in todo ==> !matcher(k)
      invariant forall k :: k in changed <==>
          k in src && k !in todo && matcher(k) && Lookup(src, k) != Lookup(Entries(dest), k)
      invariant numChanges == |changed|
      decreases todo
    {
      var key :| key in todo;
      todo := todo - {key};
      if matcher(key) && Lookup(Entries(newDest), key) != Some(src[key]) {
        changed := changed + {key};
        newDest, numChanges := Some(Entries(newDest)[key := src[key]]), numChanges + 1;
      }
    }
  }

  /** The second loop, with every key of `src` already in place: it only ever deletes. */
  method DeleteStale(src: StringMap, dest: StringMap, matcher: string -> bool)
    returns (newDest: StringMap, ghost changed: set<string>, numChanges: nat)
    ensures forall k :: Lookup(newDest, k) == if matcher(k) && k !in src then None else Lookup(dest, k)
    ensures changed == (set k | k in dest && matcher(k) && k !in src) && numChanges == |changed|
  {
    newDest, changed, numChanges := dest, {}, 0;
    var todo := dest.Keys;
    while todo != {}
      invariant todo <= dest.Keys
      invariant forall k :: Lookup(newDest, k) == if k in dest.Keys - todo && matcher(k) && k !in src then None
          else Lookup(dest, k)
      invariant forall k :: k in changed <==> k in dest.Keys - todo && matcher(k) && k !in src
      invariant numChanges == |changed|
      decreases todo
    {
      var key :| key in todo;
      todo := todo - {key};
      if matcher(key) && key !in src {
        changed := changed + {key};
        newDest, numChanges := newDest - {key}, numChanges + 1;
      }
    }
  }

  method CopySubmap(src: StringMap, dest: NilableMap, matcher: string -> bool)
    returns (newDest: NilableMap, numChanges: nat)
    ensures Entries(newDest) == Replaced(src, Entries(dest), matcher)
    ensures forall k :: Lookup(Entries(newDest), k) == if matcher(k) then Lookup(src, k) else Lookup(Entries(dest), k)
    ensures newDest.None? <==> dest.None? && forall k :: k in src ==> !matcher(k)
    ensures numChanges == |Changed(src, Entries(dest), matcher)|
  {
    ghost var written, deleted: set<string>;
    var more: nat, entries: StringMap;
    newDest, written, numChanges := SetMatched(src, dest, matcher);
    ghost var between := Entries(newDest);
    if newDest.Some? {
      entries, deleted, more := DeleteStale(src, newDest.value, matcher);
      newDest, numChanges := Some(entries), numChanges + more;
    } else {
      deleted := {};
      assert forall k :: Lookup(between, k) == None;
    }
    BothLoopsResult(src, Entries(dest), matcher, between, Entries(newDest));
    forall k ensures Lookup(Entries(newDest), k) == if matcher(k) then Lookup(src, k) else Lookup(Entries(dest), k) {
      LookupReplaced(src, Entries(dest), matcher, k);
    }
    BothLoopsCount(src, Entries(dest), matcher, between, written, deleted);
  }

  lemma BothLoopsResult(src: StringMap, dest: StringMap, matcher: string -> bool, between: StringMap, after: StringMap)
    requires forall k :: Lookup(between, k) == if k in src && matcher(k) then Lookup(src, k) else Lookup(dest, k)
    requires forall k :: Lookup(after, k) == if matcher(k) && k !in src then None else Lookup(between, k)
    ensures after == Replaced(src, dest, matcher)
  {
    forall k ensures Lookup(after, k) == Lookup(Replaced(src, dest, matcher), k) {
      LookupReplaced(src, dest, matcher, k);
      assert Lookup(between, k) == if k in src && matcher(k) then Lookup(src, k) else Lookup(dest, k);
    }
    SameLookups(after, Replaced(src, dest, matcher));
  }

  lemma BothLoopsCount(src: StringMap, dest: StringMap, matcher: string -> bool, between: StringMap,
                       written: set<string>, deleted: set<string>)
    requires forall k :: Lookup(between, k) == if k in src && matcher(k) then Lookup(src, k) else Lookup(dest, k)
    requires written == set k | k in src && matcher(k) && Lookup(src, k) != Lookup(dest, k)
    requires deleted == set k | k in between && matcher(k) && k !in src
    ensures |written| + |deleted| == |Changed(src, dest, matcher)|
  {
    var changed := Changed(src, dest, matcher);
    forall k ensures k in changed <==> k in written || k in deleted {
      ChangedAt(src, dest, matcher, between, k);
    }
    DisjointSum(written, deleted, changed);
  }

  lemma DisjointSum(a: set<string>, b: set<string>, c: set<string>)
    requires a !! b && forall k :: k in c <==> k in a || k in b
    ensures |a| + |b| == |c|
  {
    assert c == a + b;
  }

  lemma ChangedAt(src: StringMap, dest: StringMap, matcher: string -> bool, between: StringMap, k: string)
    requires Lookup(between, k) == if k in src && matcher(k) then Lookup(src, k) else Lookup(dest, k)
    ensures k in Changed(src, dest, matcher) <==>
            matcher(k) && ((k in src && Lookup(src, k) != Lookup(dest, k)) || (k in between && k !in src))
  {}

  lemma LookupReplaced(src: StringMap, dest: StringMap, matcher: string -> bool, k: string)
    ensures Lookup(Replaced(src, dest, matcher), k) == if matcher(k) then Lookup(src, k) else Lookup(dest, k)
  {}

  lemma SameLookups(a: StringMap, b: StringMap)
    requires forall k :: Lookup(a, k) == Lookup(b, k)
    ensures a == b
  {
    forall k ensures k in a <==> k in b { assert Lookup(a, k) == Lookup(b, k); }
    forall k | k in a ensures a[k] == b[k] { assert Lookup(a, k) == Lookup(b, k); }
  }

  /** Nothing is counted exactly when nothing changes; in particular a second copy counts nothing. */
  lemma NoChangesMeansSame(src: StringMap, dest: StringMap, matcher: string -> bool)
    ensures |Changed(src, dest, matcher)| == 0 <==> Replaced(src, dest, matcher) == dest
    ensures Replaced(src, Replaced(src, dest, matcher), matcher) == Replaced(src, dest, matcher)
  {
    if Changed(src, dest, matcher) == {} {
      forall k ensures Lookup(Replaced(src, dest, matcher), k) == Lookup(dest, k) {
        assert k !in Changed(src, dest, matcher);
      }
      SameLookups(Replaced(src, dest, matcher), dest);
    } else {
      var k :| k in Changed(src, dest, matcher);
      assert Lookup(Replaced(src, dest, matcher), k) == Lookup(src, k);
    }
  }
}
