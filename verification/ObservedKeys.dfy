/** The record of observed label and annotation keys: `a,b|c,d`, printed by `pkg/controllers/federate/util.go` and
    parsed by `pkg/util/propagationstatus/propagationstatus.go`. */
module ObservedKeys {
  import opened Ordering

  // ---------- strings.Join and strings.Split on one character ----------

  function Join(parts: seq<string>, sep: char): string {
    if parts == [] then ""
    else if |parts| == 1 then parts[0]
    else parts[0] + [sep] + Join(parts[1..], sep)
  }

  function Split(s: string, sep: char): (parts: seq<string>)
    ensures |parts| >= 1
  {
    if s == "" then [""]
    else
      var rest := Split(s[1..], sep);
      if s[0] == sep then [""] + rest else [[s[0]] + rest[0]] + rest[1..]
  }

  lemma {:induction false} SplitAtSeparator(a: string, rest: string, sep: char)
    requires sep !in a
    ensures Split(a + [sep] + rest, sep) == [a] + Split(rest, sep)
    ensures Split(a, sep) == [a]
  {
    if a == "" {
      assert (a + [sep] + rest)[1..] == rest;
    } else {
      SplitAtSeparator(a[1..], rest, sep);
      assert (a + [sep] + rest)[1..] == a[1..] + [sep] + rest;
      assert [a[0]] + a[1..] == a;
    }
  }

  lemma {:induction false} SplitOfJoin(parts: seq<string>, sep: char)
    requires parts != [] && forall p :: p in parts ==> sep !in p
    ensures Split(Join(parts, sep), sep) == parts
  {
    SplitAtSeparator(parts[0], Join(parts[1..], sep), sep);
    if |parts| > 1 { SplitOfJoin(parts[1..], sep); }
  }

  // ---------- The record ----------

  /** What API validation promises of every label and annotation key. */
  predicate ValidKey(k: string) {
    k != "" && ',' !in k && '|' !in k
  }

  function Print(federated: seq<string>, other: seq<string>): string {
    Join([Join(federated, ','), Join(other, ',')], '|')
  }

  lemma PrintExample()
    ensures Print(["a", "b"], ["c"]) == "a,b|c" && Print([], ["c"]) == "|c"
  {
    assert ["a", "b"][1..] == ["b"];
  }

  function Segment(s: string): set<string> {
    if s == "" then {} else set k | k in Split(s, ',')
  }

  function Parse(keys: string): (set<string>, set<string>) {
    var segments := Split(keys, '|');
    if |segments| != 2 then ({}, {}) else (Segment(segments[0]), Segment(segments[1]))
  }

  lemma {:induction false} JoinNeverHolds(parts: seq<string>, sep: char, c: char)
    requires c != sep && forall p :: p in parts ==> c !in p
    ensures c !in Join(parts, sep)
  {
    if |parts| > 1 { JoinNeverHolds(parts[1..], sep, c); }
  }

  lemma JoinIsEmpty(parts: seq<string>)
    requires forall p :: p in parts ==> ValidKey(p)
    ensures Join(parts, ',') == "" <==> parts == []
  {
    if parts != [] { assert ValidKey(parts[0]); }
  }

  lemma SegmentOfJoin(parts: seq<string>)
    requires forall p :: p in parts ==> ValidKey(p)
    ensures Segment(Join(parts, ',')) == set p | p in parts
  {
    JoinIsEmpty(parts);
    if parts != [] { SplitOfJoin(parts, ','); }
  }

  /** Parsing what was printed gives back both sets of keys. */
  lemma ParseOfPrint(federated: seq<string>, other: seq<string>)
    requires forall k :: k in federated || k in other ==> ValidKey(k)
    ensures Parse(Print(federated, other)) == (set k | k in federated, set k | k in other)
  {
    JoinNeverHolds(federated, ',', '|');
    JoinNeverHolds(other, ',', '|');
    SplitOfJoin([Join(federated, ','), Join(other, ',')], '|');
    SegmentOfJoin(federated);
    SegmentOfJoin(other);
  }

  type StringMap = map<string, string>

  /** The text generateObservedKeys writes: it depends on the two maps alone, not on the order they are walked in. */
  ghost function Record(source: StringMap, federated: StringMap): string {
    if source == map[] then ""
    else Print(Ascending(source.Keys * federated.Keys), Ascending(source.Keys - federated.Keys))
  }

  method GenerateObservedKeys(source: StringMap, federated: StringMap) returns (keys: string)
    ensures keys == Record(source, federated)
  {
    if |source| == 0 { return ""; }
    var observed, other: seq<string> := [], [];
    var todo := source.Keys;
    while todo != {}
      invariant todo <= source.Keys
      invariant DistinctKeys(observed, Self) && DistinctKeys(other, Self)
      invariant forall k :: k in observed <==> k in source.Keys - todo && k in federated
      invariant forall k :: k in other <==> k in source.Keys - todo && k !in federated
      decreases todo
    {
      var key :| key in todo;
      if key in federated {
        assert key !in observed;
        observed := observed + [key];
      } else {
        assert key !in other;
        other := other + [key];
      }
      todo := todo - {key};
    }
    SortIsAscending(observed, source.Keys * federated.Keys);
    SortIsAscending(other, source.Keys - federated.Keys);
    return Print(SortBy(observed, Self), SortBy(other, Self));
  }

  lemma ParseOfRecord(source: StringMap, federated: StringMap)
    requires forall k :: k in source ==> ValidKey(k)
    ensures Parse(Record(source, federated)) == (source.Keys * federated.Keys, source.Keys - federated.Keys)
  {
    var fed, other := Ascending(source.Keys * federated.Keys), Ascending(source.Keys - federated.Keys);
    AscendingMembers(source.Keys * federated.Keys);
    AscendingMembers(source.Keys - federated.Keys);
    if source == map[] {
      assert source.Keys == {};
    } else {
      ParseOfPrint(fed, other);
      assert (set k | k in fed) == source.Keys * federated.Keys;
      assert (set k | k in other) == source.Keys - federated.Keys;
    }
  }

  // ---------- areStringMapsSynced ----------

  function Value(m: StringMap, k: string): string {
    if k in m then m[k] else ""
  }

  predicate Synced(source: StringMap, federated: StringMap, observedKeys: string) {
    var (fed, other) := Parse(observedKeys);
    fed + other == source.Keys && forall k :: k in fed ==> Value(source, k) == Value(federated, k)
  }

  /** Against a freshly written record, two maps are in sync exactly when the federated map agrees with the source on
      the keys that were observed as federated. */
  lemma SyncedAgainstRecord(source: StringMap, observed: StringMap, federated: StringMap)
    requires forall k :: k in source ==> ValidKey(k)
    ensures Synced(source, federated, Record(source, observed)) <==>
            forall k :: k in source && k in observed ==> source[k] == Value(federated, k)
  {
    ParseOfRecord(source, observed);
    assert source.Keys * observed.Keys + (source.Keys - observed.Keys) == source.Keys;
  }
}
