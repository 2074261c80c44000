/** Go's string order and `sort.Strings`/`sort.Slice` on a string key, with the fact the controllers rely on: the sorted
    form of a collection with distinct keys does not depend on the order it was collected in. */
module Ordering {

  /** Go's `<` on strings. */
  predicate Less(a: string, b: string) {
    if a == [] then b != []
    else b != [] && (a[0] < b[0] || (a[0] == b[0] && Less(a[1..], b[1..])))
  }

  /** The order is the dictionary's: a text is less than what it is a proper beginning of, and otherwise the first
      characters that differ decide. */
  lemma {:induction false} LessIff(a: string, b: string)
    ensures Less(a, b) <==>
            exists i :: 0 <= i <= |a| && i < |b| && a[..i] == b[..i] && (i == |a| || a[i] < b[i])
  {
    if a != [] && b != [] {
      var x, y := a[1..], b[1..];
      LessIff(x, y);
      if Less(a, b) {
        if a[0] < b[0] {
          assert a[..0] == b[..0];
        } else {
          var i :| 0 <= i <= |x| && i < |y| && x[..i] == y[..i] && (i == |x| || x[i] < y[i]);
          assert a[..i + 1] == [a[0]] + x[..i] && b[..i + 1] == [b[0]] + y[..i];
          assert 0 <= i + 1 <= |a| && i + 1 < |b| && (i + 1 == |a| || a[i + 1] < b[i + 1]);
        }
      }
      if i :| 0 <= i <= |a| && i < |b| && a[..i] == b[..i] && (i == |a| || a[i] < b[i]) {
        if i > 0 {
          assert a[..i][0] == a[0] && b[..i][0] == b[0];
          assert x[..i - 1] == a[..i][1..] && y[..i - 1] == b[..i][1..];
        }
      }
    } else if b != [] {
      assert a[..0] == b[..0];
    }
  }

  lemma {:induction false} LessTransitive(a: string, b: string, c: string)
    requires Less(a, b) && Less(b, c)
    ensures Less(a, c)
  {
    if a != [] && a[0] == b[0] && b[0] == c[0] { LessTransitive(a[1..], b[1..], c[1..]); }
  }

  lemma {:induction false} LessTrichotomy(a: string, b: string)
    ensures a == b || Less(a, b) || Less(b, a)
    ensures Less(a, b) ==> a != b && !Less(b, a)
  {
    if a != [] && b != [] && a[0] == b[0] {
      LessTrichotomy(a[1..], b[1..]);
      assert a == [a[0]] + a[1..] && b == [b[0]] + b[1..];
    }
  }

  ghost predicate StrictlySorted<T(!new)>(s: seq<T>, key: T -> string) {
    forall i, j :: 0 <= i < j < |s| ==> Less(key(s[i]), key(s[j]))
  }

  ghost predicate DistinctKeys<T(!new)>(s: seq<T>, key: T -> string) {
    forall i, j :: 0 <= i < j < |s| ==> key(s[i]) != key(s[j])
  }

  function Insert<T>(x: T, s: seq<T>, key: T -> string): seq<T> {
    if s == [] || Less(key(x), key(s[0])) then [x] + s
    else [s[0]] + Insert(x, s[1..], key)
  }

  function SortBy<T>(s: seq<T>, key: T -> string): seq<T> {
    if s == [] then [] else Insert(s[0], SortBy(s[1..], key), key)
  }

  lemma {:induction false} InsertContents<T>(x: T, s: seq<T>, key: T -> string)
    ensures multiset(Insert(x, s, key)) == multiset{x} + multiset(s)
  {
    if !(s == [] || Less(key(x), key(s[0]))) {
      InsertContents(x, s[1..], key);
      assert s == [s[0]] + s[1..];
    }
  }

  lemma {:induction false} InsertSorted<T(!new)>(x: T, s: seq<T>, key: T -> string)
    requires StrictlySorted(s, key) && forall y :: y in s ==> key(y) != key(x)
    ensures StrictlySorted(Insert(x, s, key), key)
  {
    if s == [] {
    } else if Less(key(x), key(s[0])) {
      forall j | 0 < j < |s| ensures Less(key(x), key(s[j])) {
        LessTransitive(key(x), key(s[0]), key(s[j]));
      }
    } else {
      LessTrichotomy(key(x), key(s[0]));
      var rest := Insert(x, s[1..], key);
      InsertSorted(x, s[1..], key);
      InsertContents(x, s[1..], key);
      forall j | 0 <= j < |rest| ensures Less(key(s[0]), key(rest[j])) {
        assert rest[j] in multiset(rest);
        if rest[j] != x {
          assert rest[j] in s[1..];
        }
      }
    }
  }

  lemma {:induction false} SortContents<T>(s: seq<T>, key: T -> string)
    ensures multiset(SortBy(s, key)) == multiset(s)
    ensures |SortBy(s, key)| == |s|
  {
    if s != [] {
      SortContents(s[1..], key);
      InsertContents(s[0], SortBy(s[1..], key), key);
      assert s == [s[0]] + s[1..];
      assert |multiset(SortBy(s, key))| == |multiset(s)|;
    }
  }

  lemma {:induction false} SortMembers<T>(s: seq<T>, key: T -> string, x: T)
    ensures x in SortBy(s, key) <==> x in s
  {
    SortContents(s, key);
    assert x in SortBy(s, key) <==> x in multiset(SortBy(s, key));
    assert x in s <==> x in multiset(s);
  }

  lemma {:induction false} SortSorted<T(!new)>(s: seq<T>, key: T -> string)
    requires DistinctKeys(s, key)
    ensures StrictlySorted(SortBy(s, key), key)
  {
    if s != [] {
      SortSorted(s[1..], key);
      forall y | y in SortBy(s[1..], key) ensures key(y) != key(s[0]) {
        SortMembers(s[1..], key, y);
      }
      InsertSorted(s[0], SortBy(s[1..], key), key);
    }
  }

  /** Nothing is out of order; entries with one key may stand in any order. */
  ghost predicate WeaklySorted<T(!new)>(s: seq<T>, key: T -> string) {
    forall i, j :: 0 <= i < j < |s| ==> !Less(key(s[j]), key(s[i]))
  }

  lemma {:induction false} InsertWeaklySorted<T(!new)>(x: T, s: seq<T>, key: T -> string)
    requires WeaklySorted(s, key)
    ensures WeaklySorted(Insert(x, s, key), key)
  {
    if s == [] {
    } else if Less(key(x), key(s[0])) {
      forall j | 0 <= j < |s| ensures !Less(key(s[j]), key(x)) {
        LessTrichotomy(key(x), key(s[0]));
        if Less(key(s[j]), key(x)) { LessTransitive(key(s[j]), key(x), key(s[0])); }
      }
    } else {
      var rest := Insert(x, s[1..], key);
      InsertWeaklySorted(x, s[1..], key);
      InsertContents(x, s[1..], key);
      forall j | 0 <= j < |rest| ensures !Less(key(rest[j]), key(s[0])) {
        assert rest[j] in multiset(rest);
        if rest[j] != x { assert rest[j] in s[1..]; }
      }
    }
  }

  lemma {:induction false} SortWeaklySorted<T(!new)>(s: seq<T>, key: T -> string)
    ensures WeaklySorted(SortBy(s, key), key)
  {
    if s != [] {
      SortWeaklySorted(s[1..], key);
      InsertWeaklySorted(s[0], SortBy(s[1..], key), key);
    }
  }

  /** A collection has only one strictly sorted arrangement. */
  lemma {:induction false} StrictlySortedUnique<T(!new)>(a: seq<T>, b: seq<T>, key: T -> string)
    requires StrictlySorted(a, key) && StrictlySorted(b, key)
    requires forall x :: x in a <==> x in b
    ensures a == b
  {
    assert a != [] ==> a[0] in b;
    assert b != [] ==> b[0] in a;
    if a != [] {
      var i :| 0 <= i < |b| && b[i] == a[0];
      var j :| 0 <= j < |a| && a[j] == b[0];
      LessTrichotomy(key(a[0]), key(b[0]));
      assert a[0] == b[0];
      LessTrichotomy(key(a[0]), key(a[0]));
      forall x ensures x in a[1..] <==> x in b[1..] {
        assert x in a <==> x == a[0] || x in a[1..];
        assert x in b <==> x == b[0] || x in b[1..];
      }
      StrictlySortedUnique(a[1..], b[1..], key);
    }
  }

  /** Sorting forgets the order of collection. */
  lemma SortCanonical<T(!new)>(xs: seq<T>, ys: seq<T>, key: T -> string)
    requires DistinctKeys(xs, key) && DistinctKeys(ys, key)
    requires forall x :: x in xs <==> x in ys
    ensures SortBy(xs, key) == SortBy(ys, key)
  {
    SortSorted(xs, key);
    SortSorted(ys, key);
    forall x ensures x in SortBy(xs, key) <==> x in SortBy(ys, key) {
      SortMembers(xs, key, x);
      SortMembers(ys, key, x);
    }
    StrictlySortedUnique(SortBy(xs, key), SortBy(ys, key), key);
  }

  // ---------- Sets of strings in sorted order ----------

  function Self(s: string): string { s }

  /** The members of `s` in ascending order, as `sort.Strings` leaves any listing of them. */
  ghost function Ascending(s: set<string>): seq<string> {
    SortBy(Listing(s), Self)
  }

  ghost function Listing<T>(s: set<T>): seq<T> {
    if s == {} then [] else var x :| x in s; [x] + Listing(s - {x})
  }

  lemma {:induction false} ListingMembers<T>(s: set<T>)
    ensures forall x :: x in Listing(s) <==> x in s
    ensures forall i, j :: 0 <= i < j < |Listing(s)| ==> Listing(s)[i] != Listing(s)[j]
  {
    if s != {} {
      var x :| x in s && Listing(s) == [x] + Listing(s - {x});
      ListingMembers(s - {x});
    }
  }

  lemma AscendingMembers(s: set<string>)
    ensures forall x :: x in Ascending(s) <==> x in s
    ensures StrictlySorted(Ascending(s), Self)
  {
    ListingMembers(s);
    SortSorted(Listing(s), Self);
    forall x { SortMembers(Listing(s), Self, x); }
  }

  lemma SortIsAscending(xs: seq<string>, s: set<string>)
    requires DistinctKeys(xs, Self) && forall x :: x in xs <==> x in s
    ensures SortBy(xs, Self) == Ascending(s)
  {
    ListingMembers(s);
    SortCanonical(xs, Listing(s), Self);
  }
}
