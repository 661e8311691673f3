/** The pieces of Python's str and int that bed's parsers rely on. */
module PyText {
  import opened Basics

  // ---------------------------------------------------------------- strip

  /** str.isspace for one character. */
  predicate IsSpace(c: char) {
    var n := c as int;
    || 9 <= n <= 13 || 28 <= n <= 32 || n == 0x85 || n == 0xA0 || n == 0x1680
    || 0x2000 <= n <= 0x200A || n == 0x2028 || n == 0x2029 || n == 0x202F
    || n == 0x205F || n == 0x3000
  }

  function LStrip(s: string): string {
    if s != "" && IsSpace(s[0]) then LStrip(s[1..]) else s
  }

  function RStrip(s: string): string {
    if s != "" && IsSpace(s[|s| - 1]) then RStrip(s[..|s| - 1]) else s
  }

  /** str.strip() */
  function Strip(s: string): string {
    RStrip(LStrip(s))
  }

  /** Text without whitespace is what strip leaves alone. */
  lemma StripKeeps(s: string)
    requires forall i :: 0 <= i < |s| ==> !IsSpace(s[i])
    ensures Strip(s) == s
  {
  }

  // ------------------------------------------------- rsplit and rpartition

  /** s split at the last occurrence of c: rsplit(c, 1) and rpartition(c). */
  function SplitLast(s: string, c: char): (r: Option<(string, string)>)
    ensures r.None? <==> c !in s
    ensures r.Some? ==> s == r.value.0 + [c] + r.value.1 && c !in r.value.1
  {
    if s == "" then None
    else
      var front, last := s[..|s| - 1], s[|s| - 1];
      assert s == front + [last];
      if last == c then Some((front, ""))
      else
        match SplitLast(front, c)
        case None => None
        case Some((a, b)) => Some((a, b + [last]))
  }

  /** The split is the only way to write s as text, c, text without c. */
  lemma SplitLastUnique(s: string, c: char, a: string, b: string)
    requires s == a + [c] + b && c !in b
    ensures SplitLast(s, c) == Some((a, b))
  {
    var (x, y) := SplitLast(s, c).value;
    assert s == x + [c] + y;
    assert |x| == |a| by {
      assert s[|x|] == c && s[|a|] == c;
    }
    assert x == s[..|x|] && a == s[..|a|];
    assert y == s[|x| + 1..] && b == s[|a| + 1..];
  }

  /** The index of the first c in s, or |s|. */
  function FindFirst(s: string, c: char): (i: nat)
    ensures i <= |s|
    ensures c !in s[..i]
    ensures i < |s| ==> s[i] == c
    ensures i == |s| ==> c !in s
  {
    if s == "" then 0
    else if s[0] == c then 0
    else
      var i := FindFirst(s[1..], c);
      assert s[..i + 1] == [s[0]] + s[1..][..i];
      i + 1
  }

  // ------------------------------------------------------------- decimals

  predicate IsDigit(c: char) { '0' <= c <= '9' }

  predicate AllDigits(s: string) {
    forall i :: 0 <= i < |s| ==> IsDigit(s[i])
  }

  function DigitChar(d: nat): (c: char)
    requires d < 10
    ensures IsDigit(c)
  {
    (d + 48) as char
  }

  function DigitValue(c: char): nat
    requires IsDigit(c)
  {
    c as int - 48
  }

  /** The decimal digits of n, as str(n) prints them. */
  function Digits(n: nat): (s: string)
    ensures s != "" && AllDigits(s)
  {
    if n < 10 then [DigitChar(n)] else Digits(n / 10) + [DigitChar(n % 10)]
  }

  /** The number a run of digits denotes; leading zeros are allowed. */
  function Value(s: string): nat
    requires AllDigits(s)
  {
    if s == "" then 0 else 10 * Value(s[..|s| - 1]) + DigitValue(s[|s| - 1])
  }

  lemma {:induction false} ValueOfDigits(n: nat)
    ensures Value(Digits(n)) == n
  {
    var s := Digits(n);
    if n >= 10 {
      ValueOfDigits(n / 10);
      assert s[..|s| - 1] == Digits(n / 10);
    } else {
      assert s[..|s| - 1] == "";
    }
  }

  /** Python allows one underscore between two digits of a number. */
  predicate WellSpaced(s: string) {
    && s != "" && s[0] != '_' && s[|s| - 1] != '_'
    && (forall i :: 0 <= i < |s| ==> IsDigit(s[i]) || s[i] == '_')
    && (forall i :: 0 < i < |s| ==> !(s[i - 1] == '_' && s[i] == '_'))
  }

  function DropUnderscores(s: string): (r: string)
    requires forall i :: 0 <= i < |s| ==> IsDigit(s[i]) || s[i] == '_'
    ensures AllDigits(r)
    ensures AllDigits(s) ==> r == s
  {
    if s == "" then ""
    else if s[0] == '_' then DropUnderscores(s[1..])
    else [s[0]] + DropUnderscores(s[1..])
  }

  /** int(text): surrounding whitespace, one sign, digits with underscores between them. */
  function PyInt(text: string): Option<int>
  {
    var s := Strip(text);
    var negative := s != "" && s[0] == '-';
    var body := if s != "" && (s[0] == '-' || s[0] == '+') then s[1..] else s;
    if !WellSpaced(body) then None
    else
      var n: int := Value(DropUnderscores(body));
      Some(if negative then -n else n)
  }

  /** int(str(n)) == n. */
  lemma PyIntOfDigits(n: nat)
    ensures PyInt(Digits(n)) == Some(n)
  {
    hide Digits, Value, Strip;
    var s := Digits(n);
    StripKeeps(s);
    ValueOfDigits(n);
    assert WellSpaced(s);
    assert DropUnderscores(s) == s;
  }
}
