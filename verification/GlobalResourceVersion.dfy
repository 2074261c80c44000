/** The token that stands for the resource versions of every member cluster
    (`pkg/util/aggregatedlister/global_resource_version.go`): a JSON object in unpadded base64url, "" or "0". Strings
    are byte strings, as in Go. */
module GlobalResourceVersion {
  import opened Wrappers
  import opened Ordering
  import opened Base64Url
  import opened JsonText

  type Versions = map<string, string>

  function Cluster(e: Entry): string { e.name }

  predicate ByteVersions(rvs: Versions) {
    forall c :: c in rvs ==> IsBytes(c) && IsBytes(rvs[c])
  }

  /** No name and no version needs an escape. */
  predicate PlainVersions(rvs: Versions) {
    forall c :: c in rvs ==> Plain(c) && Plain(rvs[c])
  }

  // ---------- What marshalRvs prints ----------

  function PrintEntry(e: Entry): string {
    ['"'] + e.name + ['"', ':', '"'] + e.value + ['"']
  }

  function PrintEntries(es: seq<Entry>): string {
    if es == [] then ""
    else if |es| == 1 then PrintEntry(es[0])
    else PrintEntry(es[0]) + [','] + PrintEntries(es[1..])
  }

  /** The entries of `rvs` in ascending order of cluster. */
  ghost function Entries(rvs: Versions): (es: seq<Entry>)
    ensures |es| == |Ascending(rvs.Keys)|
    ensures forall i :: 0 <= i < |es| ==>
        es[i].name in rvs && es[i] == Entry(Ascending(rvs.Keys)[i], rvs[es[i].name])
  {
    var names := Ascending(rvs.Keys);
    AscendingMembers(rvs.Keys);
    seq(|names|, i requires 0 <= i < |names| => assert names[i] in names; Entry(names[i], rvs[names[i]]))
  }

  /** The document printed for `rvs`: a function of the map, so equal maps print alike whatever order they
      are walked in. */
  ghost function Document(rvs: Versions): string {
    ['{'] + PrintEntries(Entries(rvs)) + ['}']
  }

  lemma EntriesAreSorted(rvs: Versions)
    ensures StrictlySorted(Entries(rvs), Cluster)
    ensures forall e :: e in Entries(rvs) <==> e.name in rvs && e.value == rvs[e.name]
  {
    var names, es := Ascending(rvs.Keys), Entries(rvs);
    AscendingMembers(rvs.Keys);
    forall i, j | 0 <= i < j < |es| ensures Less(Cluster(es[i]), Cluster(es[j])) {
      assert Less(Self(names[i]), Self(names[j]));
    }
    forall e: Entry | e.name in rvs && e.value == rvs[e.name] ensures e in es {
      assert e.name in names;
      var i :| 0 <= i < |names| && names[i] == e.name;
      assert es[i] == e;
    }
  }

  lemma SortedEntries(es: seq<Entry>, rvs: Versions)
    requires DistinctKeys(es, Cluster)
    requires forall e :: e in es <==> e.name in rvs && e.value == rvs[e.name]
    ensures SortBy(es, Cluster) == Entries(rvs)
  {
    SortSorted(es, Cluster);
    EntriesAreSorted(rvs);
    forall e ensures e in SortBy(es, Cluster) <==> e in Entries(rvs) { SortMembers(es, Cluster, e); }
    StrictlySortedUnique(SortBy(es, Cluster), Entries(rvs), Cluster);
  }

  lemma {:induction false} PrintEntriesSplit(es: seq<Entry>, i: nat)
    requires i < |es|
    ensures PrintEntries(es) ==
            (if i == 0 then "" else PrintEntries(es[..i]) + [',']) + PrintEntries(es[i..])
    decreases i
  {
    if i == 0 {
      assert es[0..] == es;
    } else {
      PrintEntriesSplit(es[1..], i - 1);
      assert es[1..][i - 1..] == es[i..];
      assert es[..i][1..] == es[1..][..i - 1];
    }
  }

  lemma PrintEntriesSnoc(es: seq<Entry>, i: nat)
    requires i < |es|
    ensures PrintEntries(es[..i + 1]) ==
            (if i == 0 then "" else PrintEntries(es[..i]) + [',']) + PrintEntry(es[i])
  {
    PrintEntriesSplit(es[..i + 1], i);
    assert es[..i + 1][..i] == es[..i] && es[..i + 1][i..] == [es[i]];
  }

  method MarshalRvs(rvs: Versions) returns (encoded: string)
    ensures encoded == if rvs == map[] then "" else Document(rvs)
  {
    if |rvs| == 0 { return ""; }
    var slice: seq<Entry> := [];
    var todo := rvs.Keys;
    while todo != {}
      invariant todo <= rvs.Keys && DistinctKeys(slice, Cluster)
      invariant forall e :: e in slice <==> e.name in rvs.Keys - todo && e.value == rvs[e.name]
      decreases todo
    {
      var name :| name in todo;
      slice := slice + [Entry(name, rvs[name])];
      todo := todo - {name};
    }
    SortedEntries(slice, rvs);
    slice := SortBy(slice, Cluster);
    encoded := PrintSlice(slice);
  }

  /** The buffer after the first `i` entries. */
  function Printed(slice: seq<Entry>, i: nat): string
    requires i <= |slice|
  {
    ['{'] + PrintEntries(slice[..i]) + (if 0 < i < |slice| then [','] else [])
  }

  lemma PrintedStep(slice: seq<Entry>, i: nat, before: string)
    requires i < |slice| && before == Printed(slice, i)
    ensures Printed(slice, i + 1) ==
            before + ['"'] + slice[i].name + ['"', ':', '"'] + slice[i].value + ['"'] +
            (if i != |slice| - 1 then [','] else [])
  {
    AppendEntry(before, slice[i]);
    PrintEntriesSnoc(slice, i);
    var done := if i == 0 then "" else PrintEntries(slice[..i]) + [','];
    assert slice[..0] == [];
    assert before == ['{'] + done;
    assert (['{'] + done) + PrintEntry(slice[i]) == ['{'] + (done + PrintEntry(slice[i]));
  }

  lemma AppendEntry(before: string, e: Entry)
    ensures before + ['"'] + e.name + ['"', ':', '"'] + e.value + ['"'] == before + PrintEntry(e)
  {}

  method PrintSlice(slice: seq<Entry>) returns (encoded: string)
    ensures encoded == ['{'] + PrintEntries(slice) + ['}']
  {
    encoded := ['{'];
    var i, n := 0, |slice|;
    while i < n
      invariant 0 <= i <= n == |slice|
      invariant encoded == Printed(slice, i)
    {
      PrintedStep(slice, i, encoded);
      encoded := encoded + ['"'] + slice[i].name + ['"', ':', '"'] + slice[i].value + ['"'];
      if i != n - 1 { encoded := encoded + [',']; }
      i := i + 1;
    }
    assert slice[..n] == slice;
    encoded := encoded + ['}'];
  }

  // ---------- Reading a document back ----------

  lemma NoSpaceToSkip(s: string)
    requires s != "" && !IsSpace(s[0])
    ensures SkipSpace(s) == s
  {}

  /** `s` is a name, and from `t` on a colon and from `u` on a value. */
  lemma MemberFromParts(s: string, e: Entry, t: string, u: string, rest: string)
    requires PlainEntry(e) && rest != "" && !IsSpace(rest[0])
    requires s != "" && s[0] == '"' && s[1..] == e.name + ['"'] + t
    requires t != "" && t[0] == ':' && t[1..] == u
    requires u != "" && u[0] == '"' && u[1..] == e.value + ['"'] + rest
    ensures ParseMember(s) == Some(Read(e, rest))
  {
    PlainReadsBack(e.name, t);
    PlainReadsBack(e.value, rest);
    NoSpaceToSkip(t);
    NoSpaceToSkip(u);
    NoSpaceToSkip(rest);
  }

  lemma MemberReadsBack(e: Entry, rest: string)
    requires PlainEntry(e) && rest != "" && !IsSpace(rest[0])
    ensures ParseMember(PrintEntry(e) + rest) == Some(Read(e, rest))
  {
    var u := ['"'] + (e.value + ['"'] + rest);
    EntryText(e, rest, u);
    MemberFromParts(PrintEntry(e) + rest, e, [':'] + u, u, rest);
  }

  lemma EntryText(e: Entry, rest: string, u: string)
    requires u == ['"'] + (e.value + ['"'] + rest)
    ensures PrintEntry(e) + rest == ['"'] + (e.name + ['"'] + ([':'] + u))
  {
    SevenParts(e.name, e.value, rest);
  }

  lemma SevenParts(a: string, b: string, rest: string)
    ensures ['"'] + a + ['"', ':', '"'] + b + ['"'] + rest ==
            ['"'] + (a + ['"'] + ([':'] + (['"'] + (b + ['"'] + rest))))
  {
    var x, y := ['"'] + (b + ['"'] + rest), ['"', ':', '"'] + (b + ['"'] + rest);
    assert y == ['"'] + ([':'] + x);
  }

  lemma LastMemberReadsBack(e: Entry)
    requires PlainEntry(e)
    ensures ParseMembers(PrintEntry(e) + ['}']) == Some(Read([e], ""))
  {
    MemberReadsBack(e, ['}']);
  }

  lemma NextMemberReadsBack(e: Entry, rest: string, more: Read<seq<Entry>>)
    requires PlainEntry(e) && rest != "" && !IsSpace(rest[0]) && ParseMembers(rest) == Some(more)
    ensures ParseMembers(PrintEntry(e) + ([','] + rest)) == Some(Read([e] + more.value, more.rest))
  {
    MemberReadsBack(e, [','] + rest);
    assert ([','] + rest)[1..] == rest;
    NoSpaceToSkip(rest);
  }

  lemma JoinedText(first: string, more: string)
    ensures first + [','] + more + ['}'] == first + ([','] + (more + ['}']))
  {}

  lemma {:induction false} MembersReadBack(es: seq<Entry>)
    requires es != [] && forall e :: e in es ==> PlainEntry(e)
    ensures ParseMembers(PrintEntries(es) + ['}']) == Some(Read(es, ""))
    ensures PrintEntries(es)[..1] == ['"']
  {
    assert es[0] in es;
    if |es| == 1 {
      LastMemberReadsBack(es[0]);
      assert es == [es[0]];
    } else {
      MembersReadBack(es[1..]);
      var more := PrintEntries(es[1..]);
      assert (more + ['}'])[0] == more[..1][0];
      NextMemberReadsBack(es[0], more + ['}'], Read(es[1..], ""));
      JoinedText(PrintEntry(es[0]), more);
      assert [es[0]] + es[1..] == es;
    }
  }

  lemma ObjectReadsBack(es: seq<Entry>)
    requires es != [] && forall e :: e in es ==> PlainEntry(e)
    ensures ParseObject(['{'] + PrintEntries(es) + ['}']) == Some(es)
  {
    var text, u := ['{'] + PrintEntries(es) + ['}'], PrintEntries(es) + ['}'];
    MembersReadBack(es);
    NoSpaceToSkip(text);
    assert text[1..] == u && u[0] == PrintEntries(es)[..1][0];
    NoSpaceToSkip(u);
  }

  lemma {:induction false} OverlayOfDistinct(es: seq<Entry>, rvs: Versions, c: string)
    requires DistinctKeys(es, Cluster)
    ensures forall e :: e in es ==> e.name in Overlay(rvs, es) && Overlay(rvs, es)[e.name] == e.value
    ensures (forall e :: e in es ==> e.name != c) ==>
            ((c in Overlay(rvs, es) <==> c in rvs) && (c in rvs ==> Overlay(rvs, es)[c] == rvs[c]))
  {
    if es != [] {
      var next := rvs[es[0].name := es[0].value];
      OverlayOfDistinct(es[1..], next, c);
      forall e | e in es[1..] ensures e.name != es[0].name {
        var j :| 0 <= j < |es[1..]| && es[1..][j] == e;
        assert Cluster(es[0]) != Cluster(es[j + 1]);
      }
      OverlayOfDistinct(es[1..], next, es[0].name);
      assert forall e :: e in es <==> e == es[0] || e in es[1..];
    }
  }

  lemma OverlayOfEntries(rvs: Versions)
    ensures Overlay(map[], Entries(rvs)) == rvs
  {
    var es := Entries(rvs);
    EntriesAreSorted(rvs);
    forall i, j | 0 <= i < j < |es| ensures Cluster(es[i]) != Cluster(es[j]) {
      LessTrichotomy(Cluster(es[i]), Cluster(es[j]));
    }
    forall c ensures c in Overlay(map[], es) <==> c in rvs {
      OverlayOfDistinct(es, map[], c);
      if c in rvs { assert Entry(c, rvs[c]) in es; }
    }
    forall c | c in rvs ensures Overlay(map[], es)[c] == rvs[c] {
      OverlayOfDistinct(es, map[], c);
      assert Entry(c, rvs[c]) in es;
    }
  }

  /** What a document takes up. */
  lemma {:induction false} PrintedCosts(es: seq<Entry>)
    requires es != []
    ensures NonQuotes(PrintEntries(es)) + 1 == Costs(es)
  {
    EntryCosts(es[0]);
    if |es| == 1 {
      assert es[1..] == [];
    } else {
      PrintedCosts(es[1..]);
      NonQuotesConcat(PrintEntry(es[0]) + [','], PrintEntries(es[1..]));
      NonQuotesConcat(PrintEntry(es[0]), [',']);
      assert [','][1..] == "";
    }
  }

  lemma EntryCosts(e: Entry)
    ensures NonQuotes(PrintEntry(e)) + 1 == Cost(e)
  {
    NonQuotesConcat(['"'] + e.name + ['"', ':', '"'] + e.value, ['"']);
    NonQuotesConcat(['"'] + e.name + ['"', ':', '"'], e.value);
    NonQuotesConcat(['"'] + e.name, ['"', ':', '"']);
    NonQuotesConcat(['"'], e.name);
    assert ['"'][1..] == "" && ['"', ':', '"'][1..] == [':', '"'] && [':', '"'][1..] == ['"'];
  }

  lemma DocumentCosts(rvs: Versions)
    requires rvs != map[]
    ensures Entries(rvs) != [] && NonQuotes(Document(rvs)) == 1 + Costs(Entries(rvs))
  {
    var es := Entries(rvs);
    EntriesAreSorted(rvs);
    var c :| c in rvs;
    assert Entry(c, rvs[c]) in es;
    PrintedCosts(es);
    NonQuotesConcat(['{'] + PrintEntries(es), ['}']);
    NonQuotesConcat(['{'], PrintEntries(es));
    assert ['{'][1..] == "" && ['}'][1..] == "";
  }

  /** A printed document reads back as the map it was printed from exactly when no name or version needs an escape. Any
      other name or version would have to be spelled with escapes, for which the document has no room: whatever it reads
      as, with all the members of the map in it, takes up more characters than were printed. */
  lemma DocumentReadsBack(rvs: Versions)
    requires rvs != map[]
    ensures Unmarshal(Document(rvs)) == rvs <==> PlainVersions(rvs)
  {
    var es, text := Entries(rvs), Document(rvs);
    EntriesAreSorted(rvs);
    DocumentCosts(rvs);
    if PlainVersions(rvs) {
      ObjectReadsBack(es);
      OverlayOfEntries(rvs);
    } else if Unmarshal(text) == rvs {
      var members := ParseObject(text).value;
      forall e | e in es ensures e in members { OverlayHolds(map[], members, e.name); }
      forall i, j | 0 <= i < j < |es| ensures es[i] != es[j] { LessTrichotomy(Cluster(es[i]), Cluster(es[j])); }
      CostsOfSome(es, members);
      ObjectLoses(text);
      forall c | c in rvs ensures Plain(c) && Plain(rvs[c]) {
        assert Entry(c, rvs[c]) in members && PlainEntry(Entry(c, rvs[c]));
      }
      assert false;
    }
  }

  /** What goes wrong otherwise: nothing is escaped when a name is printed, so a name with quotes in it prints the
      document of a different map. */
  lemma QuotedNameReadsBackAsTwo(a: string, v: string, b: string, w: string)
    requires Plain(a) && Plain(v) && Plain(b) && Plain(w)
    ensures var rvs: Versions := map[a + ['"', ':', '"'] + v + ['"', ',', '"'] + b := w];
            Unmarshal(Document(rvs)) == map[a := v][b := w] && !PlainVersions(rvs)
  {
    var name := a + ['"', ':', '"'] + v + ['"', ',', '"'] + b;
    var rvs: Versions, e, two := map[name := w], Entry(name, w), [Entry(a, v), Entry(b, w)];
    assert name in rvs && name[|a|] == '"';
    assert Entries(rvs) == [e] by {
      assert rvs.Keys == {name};
      OneAscending(name);
    }
    assert two[1..] == [two[1]];
    assert PrintEntries([e]) == PrintEntries(two);
    ObjectReadsBack(two);
    var one: Versions := map[a := v];
    assert Overlay(map[], two) == Overlay(one, [two[1]]) by { assert map[][a := v] == one; }
    assert Overlay(one, [two[1]]) == one[b := w] by { assert [two[1]][1..] == []; }
  }

  lemma OneAscending(x: string)
    ensures Ascending({x}) == [x]
  {
    SortIsAscending([x], {x});
    assert SortBy([x], Self) == [x] by { assert [x][1..] == []; }
  }

  // ---------- Tokens ----------

  /** The value of a GlobalResourceVersion. */
  datatype State = State(clusterRVs: Versions, isZero: bool) {
    predicate Valid() { ByteVersions(clusterRVs) }

    /** What Get answers for one cluster. */
    function At(cluster: string): string {
      if isZero then "0" else if cluster in clusterRVs then clusterRVs[cluster] else ""
    }
  }

  lemma {:induction false} PrintedBytes(es: seq<Entry>)
    requires forall e :: e in es ==> IsBytes(e.name) && IsBytes(e.value)
    ensures IsBytes(PrintEntries(es))
  {
    if es != [] {
      assert IsBytes(es[0].name) && IsBytes(es[0].value) && IsBytes(PrintEntry(es[0]));
      PrintedBytes(es[1..]);
    }
  }

  lemma DocumentBytes(rvs: Versions)
    requires ByteVersions(rvs)
    ensures IsBytes(Document(rvs))
  {
    EntriesAreSorted(rvs);
    PrintedBytes(Entries(rvs));
  }

  ghost function Token(g: State): string
    requires g.Valid()
  {
    if g.isZero then "0"
    else if g.clusterRVs == map[] then ""
    else DocumentBytes(g.clusterRVs); Encode(Document(g.clusterRVs))
  }

  /** `unmarshal` is json.Unmarshal into an empty map. It is only asked to read the document of these versions as
      JSON. */
  ghost predicate ReadsDocument(unmarshal: string -> Versions, rvs: Versions) {
    unmarshal(Document(rvs)) == Unmarshal(Document(rvs))
  }

  function Untoken(s: string, unmarshal: string -> Versions): State {
    if s == "" then State(map[], false)
    else if s == "0" then State(map[], true)
    else match Decode(s)
      case None => State(map[], false)
      case Some(text) => State(unmarshal(text), false)
  }

  /** No map of versions is taken for the reserved tokens. */
  lemma TokenNotReserved(g: State)
    requires g.Valid() && !g.isZero && g.clusterRVs != map[]
    ensures Token(g) != "" && Token(g) != "0"
  {
    DocumentBytes(g.clusterRVs);
    EncodeHasNoNewlines(Document(g.clusterRVs));
  }

  /** A state that is not all zero comes back from its token exactly when no name or version needs an escape. */
  lemma TokenReadsBackIff(g: State, unmarshal: string -> Versions)
    requires g.Valid() && ReadsDocument(unmarshal, g.clusterRVs) && !g.isZero
    ensures Untoken(Token(g), unmarshal) == g <==> PlainVersions(g.clusterRVs)
  {
    if g.clusterRVs != map[] {
      TokenNotReserved(g);
      DocumentBytes(g.clusterRVs);
      DecodeOfEncode(Document(g.clusterRVs));
      DocumentReadsBack(g.clusterRVs);
    }
  }

  /** Every answer survives the trip through the token. */
  lemma TokenRoundTrip(g: State, unmarshal: string -> Versions)
    requires g.Valid() && PlainVersions(g.clusterRVs) && ReadsDocument(unmarshal, g.clusterRVs)
    ensures forall c :: Untoken(Token(g), unmarshal).At(c) == g.At(c)
    ensures !g.isZero ==> Untoken(Token(g), unmarshal) == g
  {
    if !g.isZero { TokenReadsBackIff(g, unmarshal); }
  }

  /** Two states have the same token exactly when they answer alike: both zero, or the same versions. */
  lemma TokenEquality(g: State, h: State)
    requires g.Valid() && h.Valid() && PlainVersions(g.clusterRVs) && PlainVersions(h.clusterRVs)
    ensures Token(g) == Token(h) <==> (g.isZero && h.isZero) || g == h
  {
    var unmarshal: string -> Versions := text => Unmarshal(text);
    TokenRoundTrip(g, unmarshal);
    TokenRoundTrip(h, unmarshal);
    if !g.isZero && g.clusterRVs != map[] { TokenNotReserved(g); }
    if !h.isZero && h.clusterRVs != map[] { TokenNotReserved(h); }
  }

  class GlobalVersion {
    var clusterRVs: Versions
    var isZero: bool

    ghost function Value(): State
      reads this
    {
      State(clusterRVs, isZero)
    }

    constructor FromString(s: string, unmarshal: string -> Versions)
      ensures Value() == Untoken(s, unmarshal)
    {
      clusterRVs, isZero := map[], false;
      if s == "" {
      } else if s == "0" {
        isZero := true;
      } else {
        var decoded := Decode(s);
        if decoded.Some? { clusterRVs := unmarshal(decoded.value); }
      }
    }

    constructor Of(rvs: Versions, zero: bool)
      ensures Value() == State(rvs, zero)
    {
      clusterRVs, isZero := rvs, zero;
    }

    /** After setting one cluster, that cluster answers the new version. The others keep their answers unless this is
        the call that ends the all-zero state. */
    method Set(cluster: string, rv: string)
      modifies this
      ensures clusterRVs == old(clusterRVs)[cluster := rv]
      ensures isZero == (old(isZero) && rv == "0")
      ensures Value().At(cluster) == rv
      ensures isZero == old(isZero) ==> forall c :: c != cluster ==> Value().At(c) == old(Value().At(c))
    {
      clusterRVs := clusterRVs[cluster := rv];
      if rv != "0" { isZero := false; }
    }

    method Get(cluster: string) returns (rv: string)
      ensures rv == Value().At(cluster)
    {
      if isZero { return "0"; }
      return if cluster in clusterRVs then clusterRVs[cluster] else "";
    }

    method String() returns (token: string)
      requires Value().Valid()
      ensures token == Token(Value())
    {
      if isZero { return "0"; }
      if |clusterRVs| == 0 { return ""; }
      DocumentBytes(clusterRVs);
      var buf := MarshalRvs(clusterRVs);
      return Encode(buf);
    }

    /** The copy has its own map: setting a version in one never changes the other. */
    method Clone() returns (copy: GlobalVersion)
      ensures fresh(copy) && copy.Value() == Value()
    {
      var rvs: Versions := map[];
      var todo := clusterRVs.Keys;
      while todo != {}
        invariant todo <= clusterRVs.Keys && rvs.Keys == clusterRVs.Keys - todo
        invariant forall c :: c in rvs ==> rvs[c] == clusterRVs[c]
        decreases todo
      {
        var k :| k in todo;
        rvs := rvs[k := clusterRVs[k]];
        todo := todo - {k};
      }
      copy := new GlobalVersion.Of(rvs, isZero);
    }
  }
}
