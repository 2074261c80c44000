/** What Go's json.Unmarshal reads from a JSON text (RFC 8259) into an empty map of strings. Strings are byte strings,
    as in Go. A member whose value is no string leaves the empty string under its name. */
module JsonText {
  import opened Wrappers

  datatype Entry = Entry(name: string, value: string)

  /** What was read, and the text that follows it. */
  datatype Read<T> = Read(value: T, rest: string)

  // ---------- Strings (section 7 of RFC 8259) ----------

  /** The characters a string may hold without an escape. */
  predicate PlainChar(c: char) {
    c as int >= 0x20 && c != '"' && c != '\\'
  }

  predicate Plain(s: string) {
    forall i :: 0 <= i < |s| ==> PlainChar(s[i])
  }

  function Hex(c: char): (r: Option<nat>)
    ensures r.Some? ==> r.value < 16 && c != '"'
  {
    if '0' <= c <= '9' then Some(c as int - 48)
    else if 'a' <= c <= 'f' then Some(c as int - 87)
    else if 'A' <= c <= 'F' then Some(c as int - 55)
    else None
  }

  /** The number that the first four digits of `s` spell. */
  function Hex4(s: string): (r: Option<nat>)
    ensures r.Some? ==> |s| >= 4 && r.value < 0x10000 && '"' !in s[..4]
  {
    if |s| < 4 then None
    else
      var a, b, c, d := Hex(s[0]), Hex(s[1]), Hex(s[2]), Hex(s[3]);
      if a.None? || b.None? || c.None? || d.None? then None
      else Some(((a.value * 16 + b.value) * 16 + c.value) * 16 + d.value)
  }

  /** The UTF-8 bytes of a code point. */
  function Utf8(r: nat): (bytes: string)
    requires r < 0x110000
    ensures |bytes| <= if r < 0x10000 then 3 else 4
  {
    if r < 0x80 then [r as char]
    else if r < 0x800 then [(0xC0 + r / 64) as char, (0x80 + r % 64) as char]
    else if r < 0x10000 then [(0xE0 + r / 4096) as char, (0x80 + r / 64 % 64) as char, (0x80 + r % 64) as char]
    else
      [(0xF0 + r / 262144) as char, (0x80 + r / 4096 % 64) as char, (0x80 + r / 64 % 64) as char,
       (0x80 + r % 64) as char]
  }

  /** What follows `\u`: one code point, or a surrogate pair. A lone surrogate reads as U+FFFD. */
  function Unicode(s: string): (r: Option<Read<string>>)
    ensures r.Some? ==> |r.value.rest| < |s|
  {
    var high := Hex4(s);
    if high.None? then None
    else if !(0xD800 <= high.value < 0xE000) then Some(Read(Utf8(high.value), s[4..]))
    else
      var low := if |s| >= 6 && s[4] == '\\' && s[5] == 'u' then Hex4(s[6..]) else None;
      if high.value < 0xDC00 && low.Some? && 0xDC00 <= low.value < 0xE000 then
        Some(Read(Utf8(0x10000 + (high.value - 0xD800) * 0x400 + (low.value - 0xDC00)), s[10..]))
      else Some(Read(Utf8(0xFFFD), s[4..]))
  }

  /** The escapes of one letter. */
  function Escaped(c: char): (r: Option<char>)
    ensures c == '"' ==> r == Some(c)
  {
    if c == '"' || c == '\\' || c == '/' then Some(c)
    else if c == 'b' then Some(8 as char)
    else if c == 'f' then Some(12 as char)
    else if c == 'n' then Some(10 as char)
    else if c == 'r' then Some(13 as char)
    else if c == 't' then Some(9 as char)
    else None
  }

  /** The example of section 7 of RFC 8259: the G clef, as its four bytes. */
  lemma ClefExample(rest: string)
    ensures Unicode("D834\\uDD1E" + rest) ==
            Some(Read([0xF0 as char, 0x9D as char, 0x84 as char, 0x9E as char], rest))
  {
    var s := "D834\\uDD1E" + rest;
    assert Hex4(s) == Some(0xD834);
    assert s[6..] == "DD1E" + rest;
    assert Hex4("DD1E" + rest) == Some(0xDD1E);
    assert s[10..] == rest;
  }

  /** The table of section 7 of RFC 8259; every other letter but `u` is no escape. */
  lemma EscapeTable()
    ensures Escaped('"') == Some('"') && Escaped('\\') == Some('\\') && Escaped('/') == Some('/')
    ensures Escaped('b') == Some(8 as char) && Escaped('f') == Some(12 as char) && Escaped('n') == Some('\n')
    ensures Escaped('r') == Some('\r') && Escaped('t') == Some('\t')
    ensures forall c :: c !in "\"\\/bfnrt" ==> Escaped(c) == None
  {}

  lemma HexTable(i: nat)
    requires i < 16
    ensures Hex("0123456789abcdef"[i]) == Some(i) && Hex("0123456789ABCDEF"[i]) == Some(i)
  {}

  /** The first and last code points of each length (section 3 of RFC 3629). */
  lemma Utf8Bounds()
    ensures Utf8(0x7F) == [0x7F as char] && Utf8(0x80) == [0xC2 as char, 0x80 as char]
    ensures Utf8(0x7FF) == [0xDF as char, 0xBF as char] && Utf8(0x800) == [0xE0 as char, 0xA0 as char, 0x80 as char]
    ensures Utf8(0xFFFF) == [0xEF as char, 0xBF as char, 0xBF as char]
    ensures Utf8(0x10000) == [0xF0 as char, 0x90 as char, 0x80 as char, 0x80 as char]
    ensures Utf8(0x10FFFF) == [0xF4 as char, 0x8F as char, 0xBF as char, 0xBF as char]
  {}

  /** What follows a backslash. */
  function Escape(s: string): (r: Option<Read<string>>)
    ensures r.Some? ==> |r.value.rest| < |s|
  {
    if s == "" then None
    else if s[0] == 'u' then Unicode(s[1..])
    else if Escaped(s[0]).Some? then Some(Read([Escaped(s[0]).value], s[1..]))
    else None
  }

  /** A string, from behind its opening quote. */
  function ParseString(s: string): (r: Option<Read<string>>)
    ensures r.Some? ==> |r.value.rest| < |s|
    decreases |s|
  {
    if s == "" then None
    else if s[0] == '"' then Some(Read("", s[1..]))
    else
      var first :=
        if s[0] == '\\' then Escape(s[1..])
        else if PlainChar(s[0]) then Some(Read([s[0]], s[1..]))
        else None;
      if first.None? then None
      else
        var more := ParseString(first.value.rest);
        if more.None? then None else Some(Read(first.value.value + more.value.value, more.value.rest))
  }

  // ---------- Whitespace and numbers (sections 2 and 6) ----------

  predicate IsSpace(c: char) {
    c == ' ' || c == '\t' || c == '\n' || c == '\r'
  }

  function SkipSpace(s: string): (rest: string)
    ensures |rest| <= |s|
  {
    if s != "" && IsSpace(s[0]) then SkipSpace(s[1..]) else s
  }

  predicate IsDigit(c: char) {
    '0' <= c <= '9'
  }

  function SkipDigits(s: string): (rest: string)
    ensures |rest| <= |s|
  {
    if s != "" && IsDigit(s[0]) then SkipDigits(s[1..]) else s
  }

  /** One digit or more. */
  function Digits(s: string): (rest: Option<string>)
    ensures rest.Some? ==> |rest.value| < |s|
  {
    if s == "" || !IsDigit(s[0]) then None else Some(SkipDigits(s[1..]))
  }

  function Fraction(s: string): (rest: Option<string>)
    ensures rest.Some? ==> |rest.value| <= |s|
  {
    if s == "" || s[0] != '.' then Some(s) else Digits(s[1..])
  }

  function Exponent(s: string): (rest: Option<string>)
    ensures rest.Some? ==> |rest.value| <= |s|
  {
    if s == "" || (s[0] != 'e' && s[0] != 'E') then Some(s)
    else if |s| > 1 && (s[1] == '+' || s[1] == '-') then Digits(s[2..])
    else Digits(s[1..])
  }

  function Number(s: string): (rest: Option<string>)
    ensures rest.Some? ==> |rest.value| < |s|
  {
    var t := if s != "" && s[0] == '-' then s[1..] else s;
    var whole := if t != "" && t[0] == '0' then Some(t[1..]) else Digits(t);
    if whole.None? then None
    else
      var fraction := Fraction(whole.value);
      if fraction.None? then None else Exponent(fraction.value)
  }

  lemma SpaceExample()
    ensures SkipSpace(" \t\n\rx") == "x"
  {
    assert " \t\n\rx"[1..] == "\t\n\rx" && "\t\n\rx"[1..] == "\n\rx" && "\n\rx"[1..] == "\rx" && "\rx"[1..] == "x";
  }

  lemma NumberExample()
    ensures Number("-12.5e+3,") == Some(",")
  {
    assert "-12.5e+3,"[1..] == "12.5e+3,";
    assert "12.5e+3,"[1..] == "2.5e+3,";
    assert "2.5e+3,"[1..] == ".5e+3,";
    assert ".5e+3,"[1..] == "5e+3,";
    assert "5e+3,"[1..] == "e+3,";
    assert "e+3,"[2..] == "3,";
    assert "3,"[1..] == ",";
  }

  lemma NotNumbers()
    ensures Number("01") == Some("1")
    ensures Number("-") == None && Number("1.") == None && Number("1e") == None && Number("+1") == None
  {
    assert "01"[1..] == "1" && "-"[1..] == "" && "1."[1..] == ".";
    assert "."[1..] == "" && "1e"[1..] == "e" && "e"[1..] == "";
  }

  function Literal(s: string, word: string): Option<string> {
    if |word| <= |s| && s[..|word|] == word then Some(s[|word|..]) else None
  }

  // ---------- Values, arrays and objects (sections 3, 4 and 5) ----------

  /** A value, read as a string: anything else is skipped and reads as the empty string. */
  function ParseValue(s: string): (r: Option<Read<string>>)
    ensures r.Some? ==> |r.value.rest| < |s|
    decreases |s|, 0
  {
    if s == "" then None
    else if s[0] == '"' then ParseString(s[1..])
    else
      var rest := if s[0] == '{' then SkipObject(s[1..]) else if s[0] == '[' then SkipArray(s[1..]) else Scalar(s);
      if rest.None? then None else Some(Read("", rest.value))
  }

  function Scalar(s: string): (rest: Option<string>)
    ensures rest.Some? ==> |rest.value| < |s|
  {
    if Number(s).Some? then Number(s)
    else if Literal(s, "true").Some? then Literal(s, "true")
    else if Literal(s, "false").Some? then Literal(s, "false")
    else Literal(s, "null")
  }

  function SkipObject(s: string): (rest: Option<string>)
    ensures rest.Some? ==> |rest.value| < |s|
    decreases |s|, 3
  {
    var t := SkipSpace(s);
    if t != "" && t[0] == '}' then Some(t[1..])
    else
      var members := ParseMembers(t);
      if members.None? then None else Some(members.value.rest)
  }

  function SkipArray(s: string): (rest: Option<string>)
    ensures rest.Some? ==> |rest.value| < |s|
    decreases |s|, 3
  {
    var t := SkipSpace(s);
    if t != "" && t[0] == ']' then Some(t[1..]) else SkipElements(t)
  }

  function SkipElements(s: string): (rest: Option<string>)
    ensures rest.Some? ==> |rest.value| < |s|
    decreases |s|, 2
  {
    var value := ParseValue(s);
    if value.None? then None
    else
      var t := SkipSpace(value.value.rest);
      if t != "" && t[0] == ']' then Some(t[1..])
      else if t != "" && t[0] == ',' then SkipElements(SkipSpace(t[1..]))
      else None
  }

  function ParseMember(s: string): (r: Option<Read<Entry>>)
    ensures r.Some? ==> |r.value.rest| < |s|
    decreases |s|, 1
  {
    if s == "" || s[0] != '"' then None
    else
      var name := ParseString(s[1..]);
      if name.None? then None
      else
        var t := SkipSpace(name.value.rest);
        if t == "" || t[0] != ':' then None
        else
          var value := ParseValue(SkipSpace(t[1..]));
          if value.None? then None
          else Some(Read(Entry(name.value.value, value.value.value), SkipSpace(value.value.rest)))
  }

  /** The members of an object, from the first name to the closing brace. */
  function ParseMembers(s: string): (r: Option<Read<seq<Entry>>>)
    ensures r.Some? ==> |r.value.rest| < |s|
    decreases |s|, 2
  {
    var member := ParseMember(s);
    if member.None? || member.value.rest == "" then None
    else
      var e, t := member.value.value, member.value.rest;
      if t[0] == '}' then Some(Read([e], t[1..]))
      else if t[0] == ',' then
        var more := ParseMembers(SkipSpace(t[1..]));
        if more.None? then None else Some(Read([e] + more.value.value, more.value.rest))
      else None
  }

  /** The members of a text that is one object, in the order of the text. */
  function ParseObject(s: string): Option<seq<Entry>> {
    var t := SkipSpace(s);
    if t == "" || t[0] != '{' then None
    else
      var u := SkipSpace(t[1..]);
      if u != "" && u[0] == '}' then (if SkipSpace(u[1..]) == "" then Some([]) else None)
      else
        var members := ParseMembers(u);
        if members.Some? && SkipSpace(members.value.rest) == "" then Some(members.value.value) else None
  }

  type StringMap = map<string, string>

  /** The map of a list of members, later ones winning, on top of `m`. */
  function Overlay(m: StringMap, es: seq<Entry>): StringMap
    decreases |es|
  {
    if es == [] then m else Overlay(m[es[0].name := es[0].value], es[1..])
  }

  /** What json.Unmarshal leaves in an empty map: nothing if the text is no JSON object. */
  function Unmarshal(s: string): StringMap {
    var es := ParseObject(s);
    if es.None? then map[] else Overlay(map[], es.value)
  }

  lemma {:induction false} OverlayHolds(m: StringMap, es: seq<Entry>, name: string)
    requires name in Overlay(m, es)
    ensures Entry(name, Overlay(m, es)[name]) in es || (name in m && m[name] == Overlay(m, es)[name])
    decreases |es|
  {
    if es != [] {
      OverlayHolds(m[es[0].name := es[0].value], es[1..], name);
      assert es[0] in es;
    }
  }

  // ---------- Plain strings read as themselves ----------

  lemma {:induction false} PlainReadsBack(s: string, rest: string)
    requires Plain(s)
    ensures ParseString(s + ['"'] + rest) == Some(Read(s, rest))
    decreases |s|
  {
    var whole := s + ['"'] + rest;
    if s == "" {
      assert whole == ['"'] + rest;
    } else {
      PlainReadsBack(s[1..], rest);
      assert PlainChar(whole[0]) && whole[1..] == s[1..] + ['"'] + rest;
      assert ParseString(whole) == Some(Read([s[0]] + s[1..], rest));
      assert [s[0]] + s[1..] == s;
    }
  }

  // ---------- Reading never gains characters ----------

  /** The characters of a text other than quotes. */
  function NonQuotes(s: string): nat {
    if s == "" then 0 else (if s[0] == '"' then 0 else 1) + NonQuotes(s[1..])
  }

  lemma {:induction false} NonQuotesConcat(a: string, b: string)
    ensures NonQuotes(a + b) == NonQuotes(a) + NonQuotes(b)
  {
    if a == "" {
      assert a + b == b;
    } else {
      NonQuotesConcat(a[1..], b);
      assert (a + b)[1..] == a[1..] + b;
    }
  }

  lemma {:induction false} NonQuotesBound(s: string)
    ensures NonQuotes(s) <= |s|
    ensures '"' !in s ==> NonQuotes(s) == |s|
  {
    if s != "" { NonQuotesBound(s[1..]); }
  }

  lemma NonQuotesDrop(s: string, n: nat)
    requires n <= |s|
    ensures NonQuotes(s) == NonQuotes(s[..n]) + NonQuotes(s[n..])
  {
    assert s == s[..n] + s[n..];
    NonQuotesConcat(s[..n], s[n..]);
  }

  /** The six characters of a code point give three bytes at most, the twelve of a surrogate pair four. */
  lemma UnicodeLoses(s: string)
    ensures Unicode(s).Some? ==> NonQuotes(s) > NonQuotes(Unicode(s).value.value) + NonQuotes(Unicode(s).value.rest)
  {
    if Unicode(s).Some? {
      var read := Unicode(s).value;
      NonQuotesBound(read.value);
      NonQuotesBound(s[..4]);
      NonQuotesDrop(s, 4);
      if read.rest != s[4..] {
        NonQuotesDrop(s[4..], 6);
        assert s[4..][6..] == s[10..];
        NonQuotesTail(s[4..][..6]);
      }
    }
  }

  lemma NonQuotesTail(s: string)
    requires |s| == 6 && s[0] == '\\' && s[1] == 'u'
    ensures NonQuotes(s) >= 2
  {
    assert s[1..][0] == 'u';
  }

  /** An escape takes up more characters than it stands for. */
  lemma EscapeLoses(s: string)
    ensures Escape(s).Some? ==> 1 + NonQuotes(s) > NonQuotes(Escape(s).value.value) + NonQuotes(Escape(s).value.rest)
  {
    if Escape(s).Some? {
      if s[0] == 'u' {
        UnicodeLoses(s[1..]);
      } else {
        OneCharacter([Escaped(s[0]).value]);
      }
    }
  }

  lemma OneCharacter(s: string)
    requires |s| == 1
    ensures NonQuotes(s) == if s == ['"'] then 0 else 1
  {
    assert s[1..] == "";
  }

  /** A string stands for no more characters than it takes up, and for as many only if it holds no escape. */
  lemma {:induction false} StringLoses(s: string)
    ensures ParseString(s).Some? ==>
              var read := ParseString(s).value;
              && NonQuotes(s) >= NonQuotes(read.value) + NonQuotes(read.rest)
              && (NonQuotes(s) == NonQuotes(read.value) + NonQuotes(read.rest) ==> Plain(read.value))
    decreases |s|
  {
    if ParseString(s).Some? && s[0] != '"' {
      var first := if s[0] == '\\' then Escape(s[1..]).value else Read([s[0]], s[1..]);
      StringLoses(first.rest);
      NonQuotesConcat(first.value, ParseString(first.rest).value.value);
      if s[0] == '\\' {
        EscapeLoses(s[1..]);
      } else {
        assert first.value[1..] == "";
      }
    }
  }

  lemma {:induction false} SpaceLoses(s: string)
    ensures NonQuotes(s) >= NonQuotes(SkipSpace(s))
  {
    if s != "" && IsSpace(s[0]) { SpaceLoses(s[1..]); }
  }

  lemma {:induction false} DigitsLose(s: string)
    ensures NonQuotes(s) >= NonQuotes(SkipDigits(s))
  {
    if s != "" && IsDigit(s[0]) { DigitsLose(s[1..]); }
  }

  lemma TailLoses(s: string, n: nat)
    requires n <= |s|
    ensures NonQuotes(s) >= NonQuotes(s[n..])
  {
    NonQuotesDrop(s, n);
  }

  lemma DigitRunLoses(s: string)
    ensures Digits(s).Some? ==> NonQuotes(s) >= NonQuotes(Digits(s).value)
  {
    if Digits(s).Some? { DigitsLose(s[1..]); }
  }

  lemma FractionLoses(s: string)
    ensures Fraction(s).Some? ==> NonQuotes(s) >= NonQuotes(Fraction(s).value)
  {
    if s != "" && s[0] == '.' { DigitRunLoses(s[1..]); }
  }

  lemma ExponentLoses(s: string)
    ensures Exponent(s).Some? ==> NonQuotes(s) >= NonQuotes(Exponent(s).value)
  {
    if s != "" && (s[0] == 'e' || s[0] == 'E') {
      var n := if |s| > 1 && (s[1] == '+' || s[1] == '-') then 2 else 1;
      TailLoses(s, n);
      DigitRunLoses(s[n..]);
    }
  }

  lemma NumberLoses(s: string)
    ensures Number(s).Some? ==> NonQuotes(s) >= NonQuotes(Number(s).value)
  {
    if Number(s).Some? {
      var t := if s != "" && s[0] == '-' then s[1..] else s;
      var whole := if t != "" && t[0] == '0' then Some(t[1..]) else Digits(t);
      DigitRunLoses(t);
      FractionLoses(whole.value);
      ExponentLoses(Fraction(whole.value).value);
    }
  }

  lemma ScalarLoses(s: string)
    ensures Scalar(s).Some? ==> NonQuotes(s) >= NonQuotes(Scalar(s).value)
  {
    NumberLoses(s);
    if Number(s).None? && Scalar(s).Some? { TailLoses(s, |s| - |Scalar(s).value|); }
  }

  /** What a member takes up at least: its characters, the colon, and the comma or brace behind it. */
  function Cost(e: Entry): nat {
    NonQuotes(e.name) + NonQuotes(e.value) + 2
  }

  function Costs(es: seq<Entry>): nat {
    if es == [] then 0 else Cost(es[0]) + Costs(es[1..])
  }

  predicate PlainEntry(e: Entry) {
    Plain(e.name) && Plain(e.value)
  }

  lemma {:induction false} ValueLoses(s: string)
    ensures ParseValue(s).Some? ==>
              var read := ParseValue(s).value;
              && NonQuotes(s) >= NonQuotes(read.value) + NonQuotes(read.rest)
              && (NonQuotes(s) == NonQuotes(read.value) + NonQuotes(read.rest) ==> Plain(read.value))
    decreases |s|, 0
  {
    if ParseValue(s).Some? {
      if s[0] == '"' {
        StringLoses(s[1..]);
      } else if s[0] == '{' {
        var t := SkipSpace(s[1..]);
        SpaceLoses(s[1..]);
        if t == "" || t[0] != '}' { MembersLose(t); }
      } else if s[0] == '[' {
        var t := SkipSpace(s[1..]);
        SpaceLoses(s[1..]);
        if t == "" || t[0] != ']' { ElementsLose(t); }
      } else {
        ScalarLoses(s);
      }
    }
  }

  lemma {:induction false} ElementsLose(s: string)
    ensures SkipElements(s).Some? ==> NonQuotes(s) >= NonQuotes(SkipElements(s).value)
    decreases |s|, 2
  {
    if SkipElements(s).Some? {
      var rest := ParseValue(s).value.rest;
      var t := SkipSpace(rest);
      ValueLoses(s);
      SpaceLoses(rest);
      if t[0] == ',' {
        SpaceLoses(t[1..]);
        ElementsLose(SkipSpace(t[1..]));
      }
    }
  }

  lemma {:induction false} MemberLoses(s: string)
    ensures ParseMember(s).Some? ==>
              var read := ParseMember(s).value;
              && NonQuotes(s) >= Cost(read.value) - 1 + NonQuotes(read.rest)
              && (NonQuotes(s) == Cost(read.value) - 1 + NonQuotes(read.rest) ==> PlainEntry(read.value))
    decreases |s|, 1
  {
    if ParseMember(s).Some? {
      var name := ParseString(s[1..]).value;
      var t := SkipSpace(name.rest);
      var value := ParseValue(SkipSpace(t[1..])).value;
      StringLoses(s[1..]);
      SpaceLoses(name.rest);
      SpaceLoses(t[1..]);
      ValueLoses(SkipSpace(t[1..]));
      SpaceLoses(value.rest);
    }
  }

  lemma {:induction false} MembersLose(s: string)
    ensures ParseMembers(s).Some? ==>
              var read := ParseMembers(s).value;
              && NonQuotes(s) >= Costs(read.value) + NonQuotes(read.rest)
              && (NonQuotes(s) == Costs(read.value) + NonQuotes(read.rest) ==>
                    forall e :: e in read.value ==> PlainEntry(e))
    decreases |s|, 2
  {
    if ParseMembers(s).Some? {
      var e, t := ParseMember(s).value.value, ParseMember(s).value.rest;
      MemberLoses(s);
      if t[0] == '}' {
        assert [e][1..] == [];
      } else {
        var more := ParseMembers(SkipSpace(t[1..])).value;
        SpaceLoses(t[1..]);
        MembersLose(SkipSpace(t[1..]));
        assert ([e] + more.value)[1..] == more.value;
      }
    }
  }

  /** An object takes up at least its members and a brace, and exactly that only if no name or value is escaped. */
  lemma ObjectLoses(s: string)
    ensures ParseObject(s).Some? ==>
              var es := ParseObject(s).value;
              && NonQuotes(s) >= 1 + Costs(es)
              && (NonQuotes(s) == 1 + Costs(es) ==> forall e :: e in es ==> PlainEntry(e))
  {
    if ParseObject(s).Some? {
      var t := SkipSpace(s);
      SpaceLoses(s);
      SpaceLoses(t[1..]);
      MembersLose(SkipSpace(t[1..]));
    }
  }

  lemma {:induction false} CostsConcat(a: seq<Entry>, b: seq<Entry>)
    ensures Costs(a + b) == Costs(a) + Costs(b)
  {
    if a == [] {
      assert a + b == b;
    } else {
      CostsConcat(a[1..], b);
      assert (a + b)[1..] == a[1..] + b;
    }
  }

  /** Distinct members of a list cost no more than the list. */
  lemma {:induction false} CostsOfSome(some: seq<Entry>, es: seq<Entry>)
    requires forall e :: e in some ==> e in es
    requires forall i, j :: 0 <= i < j < |some| ==> some[i] != some[j]
    ensures Costs(some) <= Costs(es)
  {
    if some != [] {
      assert some[0] in es;
      var i :| 0 <= i < |es| && es[i] == some[0];
      var others := es[..i] + es[i + 1..];
      assert es == es[..i] + ([es[i]] + es[i + 1..]);
      CostsConcat(es[..i], [es[i]] + es[i + 1..]);
      CostsConcat([es[i]], es[i + 1..]);
      CostsConcat(es[..i], es[i + 1..]);
      assert Costs([es[i]]) == Cost(es[i]) by { assert [es[i]][1..] == []; }
      forall e | e in some[1..] ensures e in others {
        var j :| 0 <= j < |some[1..]| && some[1..][j] == e;
        assert some[j + 1] != some[0] && e in es;
        var k :| 0 <= k < |es| && es[k] == e;
        assert others[if k < i then k else k - 1] == e;
      }
      CostsOfSome(some[1..], others);
    }
  }
}
