/** Unpadded base64url (section 5 of RFC 4648) over byte strings, which are strings of characters below 256. */
module Base64Url {
  import opened Filters
  import opened Wrappers

  predicate IsBytes(s: string) {
    forall i :: 0 <= i < |s| ==> s[i] as int < 256
  }

  function Digit(i: int): char
    requires 0 <= i < 64
  {
    if i < 26 then (i + 65) as char
    else if i < 52 then (i - 26 + 97) as char
    else if i < 62 then (i - 52 + 48) as char
    else if i == 62 then '-'
    else '_'
  }

  function Undigit(c: char): (r: Option<int>)
    ensures r.Some? ==> 0 <= r.value < 64
  {
    if 'A' <= c <= 'Z' then Some(c as int - 65)
    else if 'a' <= c <= 'z' then Some(c as int - 97 + 26)
    else if '0' <= c <= '9' then Some(c as int - 48 + 52)
    else if c == '-' then Some(62)
    else if c == '_' then Some(63)
    else None
  }

  lemma UndigitDigit(i: int)
    requires 0 <= i < 64
    ensures Undigit(Digit(i)) == Some(i) && Digit(i) != '\n' && Digit(i) != '\r'
  {}

  /** The four digits of three bytes, and the digits of a partial group of one or two bytes. */
  function Digits3(x: int, y: int, z: int): string
    requires 0 <= x < 256 && 0 <= y < 256 && 0 <= z < 256
  {
    [Digit(x / 4), Digit(x % 4 * 16 + y / 16), Digit(y % 16 * 4 + z / 64), Digit(z % 64)]
  }

  function Digits2(x: int, y: int): string
    requires 0 <= x < 256 && 0 <= y < 256
  {
    [Digit(x / 4), Digit(x % 4 * 16 + y / 16), Digit(y % 16 * 4)]
  }

  function Digits1(x: int): string
    requires 0 <= x < 256
  {
    [Digit(x / 4), Digit(x % 4 * 16)]
  }

  function Encode(b: string): string
    requires IsBytes(b)
  {
    if b == "" then ""
    else if |b| == 1 then Digits1(b[0] as int)
    else if |b| == 2 then Digits2(b[0] as int, b[1] as int)
    else Digits3(b[0] as int, b[1] as int, b[2] as int) + Encode(b[3..])
  }

  /** The test vectors of section 10 of RFC 4648, and one with the two digits of the URL alphabet. */
  lemma TestVectors()
    ensures Encode("f") == "Zg" && Encode("fo") == "Zm8" && Encode("foo") == "Zm9v"
    ensures Encode("foob") == "Zm9vYg" && Encode("fooba") == "Zm9vYmE" && Encode("foobar") == "Zm9vYmFy"
    ensures Encode([0xfb as char, 0xff as char]) == "-_8"
  {
    assert "foob"[3..] == "b" && "fooba"[3..] == "ba" && "foobar"[3..] == "bar";
  }

  /** The bytes of a group of two to four digits. Like Go's decoder this ignores the unused bits of a partial group. */
  function Group(s: string): Option<string>
    requires 2 <= |s| <= 4
  {
    var p, q := Undigit(s[0]), Undigit(s[1]);
    var r := if |s| > 2 then Undigit(s[2]) else Some(0);
    var t := if |s| > 3 then Undigit(s[3]) else Some(0);
    if p.None? || q.None? || r.None? || t.None? then None
    else
      var x, y, z := (p.value * 4 + q.value / 16) as char, (q.value % 16 * 16 + r.value / 4) as char,
          (r.value % 4 * 64 + t.value) as char;
      Some(if |s| == 2 then [x] else if |s| == 3 then [x, y] else [x, y, z])
  }

  function DecodeDigits(s: string): Option<string> {
    if s == "" then Some("")
    else if |s| == 1 then None
    else if |s| <= 4 then Group(s)
    else
      var group, rest := Group(s[..4]), DecodeDigits(s[4..]);
      if group.None? || rest.None? then None else Some(group.value + rest.value)
  }

  /** Go's decoder skips line breaks. */
  function DropNewlines(s: string): string {
    if s == "" then ""
    else if s[0] == '\n' || s[0] == '\r' then DropNewlines(s[1..])
    else [s[0]] + DropNewlines(s[1..])
  }

  function Decode(s: string): Option<string> {
    DecodeDigits(DropNewlines(s))
  }

  lemma {:induction false} NewlinesDropped(s: string)
    ensures DropNewlines(s) == Kept(s, c => c != '\n' && c != '\r')
  {
    if s != "" {
      NewlinesDropped(s[1..]);
      KeptConcat([s[0]], s[1..], c => c != '\n' && c != '\r');
      assert [s[0]] + s[1..] == s && [s[0]][..0] == [];
    }
  }

  lemma {:induction false} NoNewlines(s: string)
    requires '\n' !in s && '\r' !in s
    ensures DropNewlines(s) == s
  {
    if s != "" { NoNewlines(s[1..]); }
  }

  lemma {:induction false} EncodeHasNoNewlines(b: string)
    requires IsBytes(b)
    ensures '\n' !in Encode(b) && '\r' !in Encode(b)
    ensures b != "" ==> |Encode(b)| >= 2
  {
    if |b| >= 3 { EncodeHasNoNewlines(b[3..]); }
  }

  lemma Sextets(x: int, y: int, z: int)
    requires 0 <= x < 256 && 0 <= y < 256 && 0 <= z < 256
    ensures var p, q, r, t := x / 4, x % 4 * 16 + y / 16, y % 16 * 4 + z / 64, z % 64;
            && 0 <= p < 64 && 0 <= q < 64 && 0 <= r < 64 && 0 <= t < 64
            && p * 4 + q / 16 == x && q % 16 * 16 + r / 4 == y && r % 4 * 64 + t == z
  {}

  lemma GroupOfDigits3(x: int, y: int, z: int)
    requires 0 <= x < 256 && 0 <= y < 256 && 0 <= z < 256
    ensures Group(Digits3(x, y, z)) == Some([x as char, y as char, z as char])
  {
    Sextets(x, y, z);
    UndigitDigit(x / 4);
    UndigitDigit(x % 4 * 16 + y / 16);
    UndigitDigit(y % 16 * 4 + z / 64);
    UndigitDigit(z % 64);
  }

  lemma GroupOfDigits2(x: int, y: int)
    requires 0 <= x < 256 && 0 <= y < 256
    ensures Group(Digits2(x, y)) == Some([x as char, y as char])
  {
    Sextets(x, y, 0);
    UndigitDigit(x / 4);
    UndigitDigit(x % 4 * 16 + y / 16);
    UndigitDigit(y % 16 * 4);
  }

  lemma GroupOfDigits1(x: int)
    requires 0 <= x < 256
    ensures Group(Digits1(x)) == Some([x as char])
  {
    Sextets(x, 0, 0);
    UndigitDigit(x / 4);
    UndigitDigit(x % 4 * 16);
  }

  lemma DecodeGroup(s: string, b: string)
    requires 2 <= |s| <= 4 && Group(s) == Some(b)
    ensures DecodeDigits(s) == Some(b)
  {}

  lemma DecodeAppend(s: string, t: string, b: string)
    requires |s| == 4 && |b| >= 3
    requires Group(s) == Some(b[..3]) && DecodeDigits(t) == Some(b[3..])
    ensures DecodeDigits(s + t) == Some(b)
  {
    assert (s + t)[..4] == s && (s + t)[4..] == t;
    assert b == b[..3] + b[3..];
    if t == "" { assert s + t == s && b[..3] == b; }
  }

  lemma {:induction false} DecodeDigitsOfEncode(b: string)
    requires IsBytes(b)
    ensures DecodeDigits(Encode(b)) == Some(b)
  {
    if b == "" {
    } else if |b| == 1 {
      GroupOfDigits1(b[0] as int);
      assert b == [b[0]];
      DecodeGroup(Digits1(b[0] as int), b);
    } else if |b| == 2 {
      GroupOfDigits2(b[0] as int, b[1] as int);
      assert b == [b[0], b[1]];
      DecodeGroup(Digits2(b[0] as int, b[1] as int), b);
    } else {
      DecodeDigitsOfEncode(b[3..]);
      GroupOfDigits3(b[0] as int, b[1] as int, b[2] as int);
      assert b[..3] == [b[0], b[1], b[2]];
      DecodeAppend(Digits3(b[0] as int, b[1] as int, b[2] as int), Encode(b[3..]), b);
    }
  }

  lemma DecodeOfEncode(b: string)
    requires IsBytes(b)
    ensures Decode(Encode(b)) == Some(b)
  {
    EncodeHasNoNewlines(b);
    NoNewlines(Encode(b));
    DecodeDigitsOfEncode(b);
  }
}
