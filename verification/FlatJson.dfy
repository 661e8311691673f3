/**
  json.dumps and json.loads for the flat objects bed signs: string, integer, float, boolean and
  null members. Output is ASCII only and compact, as
  separators=(",", ":") and the default ensure_ascii ask for.
 */
module FlatJson {
  import opened Basics
  import opened PyText
  import opened Numerals

  datatype Json =
    | JNull
    | JBool(b: bool)
    | JInt(n: int)
    | JFloat(ticks: int)   // in units of 10^-PLACES
    | JStr(s: string)

  datatype Member = Member(key: string, value: Json)

  // ------------------------------------------------------------- printing

  function HexDigit(d: nat): char
    requires d < 16
  {
    if d < 10 then (d + '0' as int) as char else (d - 10 + 'a' as int) as char
  }

  function Hex4(n: nat): (h: string)
    requires n < 0x10000
    ensures |h| == 4
  {
    [HexDigit(n / 4096), HexDigit(n / 256 % 16), HexDigit(n / 16 % 16), HexDigit(n % 16)]
  }

  /** One character of a string literal, escaped to ASCII. */
  function EscapeChar(c: char): string {
    var n := c as int;
    if c == '"' then "\\\""
    else if c == '\\' then "\\\\"
    else if n == 8 then "\\b"
    else if n == 9 then "\\t"
    else if n == 10 then "\\n"
    else if n == 12 then "\\f"
    else if n == 13 then "\\r"
    else if ' ' <= c <= '~' then [c]
    else if n < 0x10000 then "\\u" + Hex4(n)
    else
      var m := n - 0x10000;
      "\\u" + Hex4(0xD800 + m / 1024) + "\\u" + Hex4(0xDC00 + m % 1024)
  }

  function Escape(s: string): string {
    if s == "" then "" else EscapeChar(s[0]) + Escape(s[1..])
  }

  function PrintValue(v: Json): string {
    match v
    case JNull => "null"
    case JBool(b) => if b then "true" else "false"
    case JInt(n) => PrintInt(n)
    case JFloat(ticks) => Repr(ticks)
    case JStr(s) => "\"" + Escape(s) + "\""
  }

  function PrintMember(m: Member): string {
    "\"" + Escape(m.key) + "\":" + PrintValue(m.value)
  }

  /** The members from here on, up to and including the closing brace. */
  function PrintMembers(ms: seq<Member>): string
    requires ms != []
  {
    PrintMember(ms[0]) + (if |ms| == 1 then "}" else "," + PrintMembers(ms[1..]))
  }

  /** json.dumps of a dict whose items, in key order, are ms. */
  function PrintObject(ms: seq<Member>): string {
    "{" + if ms == [] then "}" else PrintMembers(ms)
  }

  // -------------------------------------------------------------- parsing

  function HexValue(c: char): Option<nat> {
    if '0' <= c <= '9' then Some(c as int - '0' as int)
    else if 'a' <= c <= 'f' then Some(c as int - 'a' as int + 10)
    else if 'A' <= c <= 'F' then Some(c as int - 'A' as int + 10)
    else None
  }

  /** The four hexadecimal digits at the front of t. */
  function ParseHex4(t: string): (r: Option<nat>)
    ensures r.Some? ==> r.value < 0x10000 && |t| >= 4
  {
    if |t| < 4 then None
    else
      match (HexValue(t[0]), HexValue(t[1]), HexValue(t[2]), HexValue(t[3]))
      case (Some(a), Some(b), Some(c), Some(d)) =>
        var n := a * 4096 + b * 256 + c * 16 + d;
        if n < 0x10000 then Some(n) else None
      case _ => None
  }

  /** One character of a string literal, or None where the literal is malformed. */
  function UnescapeChar(t: string): (r: Option<(char, string)>)
    requires t != ""
    ensures r.Some? ==> |r.value.1| < |t|
  {
    if t[0] as int < 32 || t[0] == '"' then None
    else if t[0] != '\\' then Some((t[0], t[1..]))
    else if |t| < 2 then None
    else if t[1] == '"' || t[1] == '\\' || t[1] == '/' then Some((t[1], t[2..]))
    else if t[1] == 'b' then Some((8 as char, t[2..]))
    else if t[1] == 't' then Some((9 as char, t[2..]))
    else if t[1] == 'n' then Some((10 as char, t[2..]))
    else if t[1] == 'f' then Some((12 as char, t[2..]))
    else if t[1] == 'r' then Some((13 as char, t[2..]))
    else if t[1] == 'u' then UnescapeHex(t)
    else None
  }

  /** A \uXXXX escape, or a surrogate pair of them. */
  function UnescapeHex(t: string): (r: Option<(char, string)>)
    requires |t| >= 2
    ensures r.Some? ==> |r.value.1| < |t|
  {
    match ParseHex4(t[2..])
    case None => None
    case Some(n) =>
      if !(0xD800 <= n < 0xE000) then Some((n as char, t[6..]))
      else if n < 0xDC00 && |t| >= 12 && t[6] == '\\' && t[7] == 'u' then
        match ParseHex4(t[8..])
        case Some(m) =>
          if 0xDC00 <= m < 0xE000
          then Some(((0x10000 + (n - 0xD800) * 1024 + (m - 0xDC00)) as char, t[12..]))
          else None
        case None => None
      else None
  }

  /** The rest of a string literal, after its opening quote. */
  function ParseString(t: string): (r: Option<(string, string)>)
    ensures r.Some? ==> |r.value.1| < |t|
    decreases |t|
  {
    if t == "" then None
    else if t[0] == '"' then Some(("", t[1..]))
    else
      match UnescapeChar(t)
      case None => None
      case Some((c, rest)) =>
        match ParseString(rest)
        case None => None
        case Some((s, rest')) => Some(([c] + s, rest'))
  }

  function ParseValue(t: string): (r: Option<(Json, string)>)
    ensures r.Some? ==> |r.value.1| < |t|
  {
    if t == "" then None
    else if t[0] == '"' then
      match ParseString(t[1..])
      case None => None
      case Some((s, rest)) => Some((JStr(s), rest))
    else if "null" <= t then Some((JNull, t[4..]))
    else if "true" <= t then Some((JBool(true), t[4..]))
    else if "false" <= t then Some((JBool(false), t[5..]))
    else
      match ParseNumeral(t)
      case None => None
      case Some((Whole(n), rest)) => Some((JInt(n), rest))
      case Some((Decimal(ticks), rest)) => Some((JFloat(ticks), rest))
  }

  function SkipSpace(t: string): (r: string)
    ensures |r| <= |t|
  {
    if t != "" && (t[0] == ' ' || t[0] == '\t' || t[0] == '\n' || t[0] == '\r')
    then SkipSpace(t[1..]) else t
  }

  /** One member of an object, starting at its key. */
  function ParseMember(t: string): (r: Option<(Member, string)>)
    ensures r.Some? ==> |r.value.1| < |t|
  {
    if t == "" || t[0] != '"' then None
    else
      match ParseString(t[1..])
      case None => None
      case Some((key, rest)) =>
        var rest := SkipSpace(rest);
        if rest == "" || rest[0] != ':' then None
        else
          match ParseValue(SkipSpace(rest[1..]))
          case None => None
          case Some((v, rest')) => Some((Member(key, v), SkipSpace(rest')))
  }

  /** The members of an object from here on, through the closing brace. */
  function ParseMembers(t: string): (r: Option<(seq<Member>, string)>)
    decreases |t|
  {
    match ParseMember(t)
    case None => None
    case Some((m, rest)) =>
      if rest == "" then None
      else if rest[0] == '}' then Some(([m], rest[1..]))
      else if rest[0] == ',' then
        match ParseMembers(SkipSpace(rest[1..]))
        case None => None
        case Some((ms, rest')) => Some(([m] + ms, rest'))
      else None
  }

  /** json.loads of a flat object: its members in the order they appear. */
  function ParseObject(text: string): Option<seq<Member>> {
    var t := SkipSpace(text);
    if t == "" || t[0] != '{' then None
    else
      var body := SkipSpace(t[1..]);
      var parsed: Option<(seq<Member>, string)> :=
        if body != "" && body[0] == '}' then Some(([], body[1..])) else ParseMembers(body);
      match parsed
      case None => None
      case Some((ms, rest)) => if SkipSpace(rest) == "" then Some(ms) else None
  }

  // --------------------------------------------------------------- proofs

  lemma HexSplit(n: nat)
    requires n < 0x10000
    ensures n == n / 4096 * 4096 + n / 256 % 16 * 256 + n / 16 % 16 * 16 + n % 16
    ensures n / 4096 < 16
  {
    assert n / 16 == n / 256 * 16 + n / 16 % 16;
    assert n / 256 == n / 4096 * 16 + n / 256 % 16;
  }

  lemma HexDigitRoundTrip(d: nat)
    requires d < 16
    ensures HexValue(HexDigit(d)) == Some(d)
  {
  }

  lemma Hex4RoundTrip(n: nat, rest: string)
    requires n < 0x10000
    ensures ParseHex4(Hex4(n) + rest) == Some(n)
  {
    HexSplit(n);
    var a, b, c, d := n / 4096, n / 256 % 16, n / 16 % 16, n % 16;
    HexDigitRoundTrip(a); HexDigitRoundTrip(b); HexDigitRoundTrip(c); HexDigitRoundTrip(d);
    var t := [HexDigit(a), HexDigit(b), HexDigit(c), HexDigit(d)] + rest;
    assert t[0] == HexDigit(a) && t[1] == HexDigit(b) && t[2] == HexDigit(c) && t[3] == HexDigit(d);
  }

  /** A \uXXXX escape of a character of the basic plane. */
  lemma HexEscapeRoundTrip(c: char, rest: string)
    requires c as int < 0x10000
    ensures UnescapeHex("\\u" + Hex4(c as int) + rest) == Some((c, rest))
  {
    hide Hex4, ParseHex4;
    var t := "\\u" + Hex4(c as int) + rest;
    Hex4RoundTrip(c as int, rest);
    assert t[2..] == Hex4(c as int) + rest;
    assert t[6..] == rest;
  }

  /** A surrogate pair. */
  lemma PairEscapeRoundTrip(m: nat, rest: string)
    requires m < 0x100000
    ensures UnescapeHex("\\u" + Hex4(0xD800 + m / 1024) + "\\u" + Hex4(0xDC00 + m % 1024) + rest)
         == Some(((0x10000 + m) as char, rest))
  {
    hide Hex4, ParseHex4;
    var high, low := 0xD800 + m / 1024, 0xDC00 + m % 1024;
    var tail := "\\u" + Hex4(low) + rest;
    var t := "\\u" + Hex4(high) + "\\u" + Hex4(low) + rest;
    Hex4RoundTrip(high, tail);
    Hex4RoundTrip(low, rest);
    assert t[2..] == Hex4(high) + tail;
    assert t[8..] == Hex4(low) + rest;
    assert t[12..] == rest;
  }

  /** An escaped character is read back as that character. */
  lemma CharRoundTrip(c: char, rest: string)
    ensures UnescapeChar(EscapeChar(c) + rest) == Some((c, rest))
    ensures EscapeChar(c) != "" && EscapeChar(c)[0] != '"'
  {
    hide Hex4, ParseHex4, UnescapeHex;
    var n := c as int;
    var t := EscapeChar(c) + rest;
    if c == '"' || c == '\\' || n == 8 || n == 9 || n == 10 || n == 12 || n == 13 {
      assert t[2..] == rest;
    } else if ' ' <= c <= '~' {
      assert t[1..] == rest;
    } else if n < 0x10000 {
      HexEscapeRoundTrip(c, rest);
    } else {
      PairEscapeRoundTrip(n - 0x10000, rest);
      var m := n - 0x10000;
      assert t == "\\u" + Hex4(0xD800 + m / 1024) + "\\u" + Hex4(0xDC00 + m % 1024) + rest;
    }
  }

  /** A string literal is read back as the string it was printed from. */
  lemma {:induction false} StringRoundTrip(s: string, rest: string)
    ensures ParseString(Escape(s) + "\"" + rest) == Some((s, rest))
  {
    if s == "" {
      assert Escape(s) + "\"" + rest == "\"" + rest;
    } else {
      var tail := Escape(s[1..]) + "\"" + rest;
      assert Escape(s) + "\"" + rest == EscapeChar(s[0]) + tail;
      CharRoundTrip(s[0], tail);
      StringRoundTrip(s[1..], rest);
      assert [s[0]] + s[1..] == s;
    }
  }

  /** What may follow a value inside an object. */
  predicate Delimited(rest: string) { rest != "" && (rest[0] == ',' || rest[0] == '}') }

  /** A printed number starts with a sign or a digit, so no other kind of value is tried. */
  lemma NumberStart(t: string, rest: string)
    requires NumeralText(t)
    ensures SkipSpace(t + rest) == t + rest
    ensures ParseValue(t + rest) ==
      match ParseNumeral(t + rest)
      case None => None
      case Some((Whole(n), after)) => Some((JInt(n), after))
      case Some((Decimal(ticks), after)) => Some((JFloat(ticks), after))
  {
    hide ParseNumeral;
    var u := t + rest;
    assert u[0] == '-' || IsDigit(u[0]);
    assert "null"[0] == 'n' && "true"[0] == 't' && "false"[0] == 'f';
  }

  lemma NumberRoundTrip(v: Json, rest: string)
    requires Delimited(rest) && (v.JInt? || v.JFloat?)
    ensures ParseValue(PrintValue(v) + rest) == Some((v, rest))
    ensures SkipSpace(PrintValue(v) + rest) == PrintValue(v) + rest
  {
    var n := if v.JInt? then v.n else v.ticks;
    assert Ends(rest);
    PrintsAreNumerals(n);
    hide PrintInt, Repr, ParseNumeral, ParseValue, SkipSpace, NumeralText;
    WholeRoundTrip(n, rest);
    DecimalRoundTrip(n, rest);
    NumberStart(PrintInt(n), rest);
    NumberStart(Repr(n), rest);
  }

  lemma WordRoundTrip(v: Json, rest: string)
    requires v.JNull? || v.JBool?
    ensures ParseValue(PrintValue(v) + rest) == Some((v, rest))
    ensures SkipSpace(PrintValue(v) + rest) == PrintValue(v) + rest
  {
    var w := PrintValue(v);
    var t := w + rest;
    assert t[0] == w[0] && t[|w|..] == rest;
    assert "null"[0] == 'n' && "true"[0] == 't' && "false"[0] == 'f';
  }

  lemma ValueRoundTrip(v: Json, rest: string)
    requires Delimited(rest)
    ensures ParseValue(PrintValue(v) + rest) == Some((v, rest))
    ensures SkipSpace(PrintValue(v) + rest) == PrintValue(v) + rest
  {
    hide ParseString, Escape, PrintInt, Repr, ParseNumeral;
    match v
    case JNull => WordRoundTrip(v, rest);
    case JBool(b) => WordRoundTrip(v, rest);
    case JInt(n) => NumberRoundTrip(v, rest);
    case JFloat(ticks) => NumberRoundTrip(v, rest);
    case JStr(s) =>
      var t := PrintValue(v) + rest;
      StringRoundTrip(s, rest);
      assert t[1..] == Escape(s) + "\"" + rest;
  }

  lemma MemberRoundTrip(m: Member, rest: string)
    requires Delimited(rest)
    ensures ParseMember(PrintMember(m) + rest) == Some((m, rest))
    ensures SkipSpace(PrintMember(m) + rest) == PrintMember(m) + rest
  {
    hide ParseString, Escape, PrintValue, ParseValue;
    var t := PrintMember(m) + rest;
    var value := PrintValue(m.value) + rest;
    var after := ":" + value;
    assert t[0] == '"';
    assert t[1..] == Escape(m.key) + "\"" + after;
    StringRoundTrip(m.key, after);
    assert after[1..] == value;
    ValueRoundTrip(m.value, rest);
    assert SkipSpace(rest) == rest && SkipSpace(after) == after;
  }

  lemma {:induction false} MembersRoundTrip(ms: seq<Member>, rest: string)
    requires ms != []
    ensures ParseMembers(PrintMembers(ms) + rest) == Some((ms, rest))
    ensures SkipSpace(PrintMembers(ms) + rest) == PrintMembers(ms) + rest
  {
    hide ParseMember, PrintMember;
    var tail := if |ms| == 1 then rest else PrintMembers(ms[1..]) + rest;
    var after := (if |ms| == 1 then "}" else ",") + tail;
    MemberRoundTrip(ms[0], after);
    assert PrintMembers(ms) + rest == PrintMember(ms[0]) + after;
    assert after[1..] == tail;
    assert ms == [ms[0]] + ms[1..];
    if |ms| == 1 {
      assert ms == [ms[0]];
    } else {
      MembersRoundTrip(ms[1..], rest);
    }
  }

  lemma MembersStart(ms: seq<Member>)
    requires ms != []
    ensures PrintMembers(ms) != "" && PrintMembers(ms)[0] == '"'
  {
    assert PrintMember(ms[0])[0] == '"';
  }

  /** json.loads(json.dumps(object)) gives back the members of any flat object. */
  lemma ObjectRoundTrip(ms: seq<Member>)
    ensures ParseObject(PrintObject(ms)) == Some(ms)
  {
    hide ParseMembers, PrintMember;
    var t := PrintObject(ms);
    if ms == [] {
      assert t[1..] == "}" && "}"[1..] == "";
    } else {
      MembersStart(ms);
      MembersRoundTrip(ms, "");
      assert t[1..] == PrintMembers(ms) + "" == PrintMembers(ms);
    }
  }

  predicate IsAscii(s: string) { forall i :: 0 <= i < |s| ==> s[i] as int < 128 }

  lemma EscapedCharIsAscii(c: char)
    ensures IsAscii(EscapeChar(c))
  {
  }

  lemma {:induction false} EscapeIsAscii(s: string)
    ensures IsAscii(Escape(s))
  {
    hide EscapeChar;
    if s != "" {
      EscapedCharIsAscii(s[0]);
      EscapeIsAscii(s[1..]);
    }
  }

  lemma ValueIsAscii(v: Json)
    ensures IsAscii(PrintValue(v))
  {
    match v
    case JStr(s) => EscapeIsAscii(s);
    case JInt(n) => PrintsAreNumerals(n); hide PrintInt;
    case JFloat(ticks) => PrintsAreNumerals(ticks); hide Repr;
    case _ =>
  }

  lemma MemberIsAscii(m: Member)
    ensures IsAscii(PrintMember(m))
  {
    EscapeIsAscii(m.key);
    ValueIsAscii(m.value);
  }

  lemma {:induction false} MembersAreAscii(ms: seq<Member>)
    requires ms != []
    ensures IsAscii(PrintMembers(ms))
  {
    MemberIsAscii(ms[0]);
    if |ms| > 1 { MembersAreAscii(ms[1..]); }
  }

  /** ensure_ascii: the printed object holds ASCII characters only. */
  lemma ObjectIsAscii(ms: seq<Member>)
    ensures IsAscii(PrintObject(ms))
  {
    if ms != [] { MembersAreAscii(ms); }
  }
}
