/** The HOST:PORT parser of the --bind option. */
module BindSpec {
  import opened Basics
  import opened PyText

  datatype SpecError = Malformed | PortNotInteger | PortOutOfRange

  datatype Spec = Bound(host: string, port: int) | Bad(error: SpecError)

  /** The host text and the port text, when the value has the shape of either form. */
  function Halves(value: string): Option<(string, string)> {
    if value == "" || ':' !in value then None
    else if value[0] == '[' then
      var end := FindFirst(value, ']');
      if end == |value| || end + 1 >= |value| || value[end + 1] != ':' then None
      else Some((value[1..end], value[end + 2..]))
    else
      var (host, port) := SplitLast(value, ':').value;
      if host == "" || port == "" then None else Some((host, port))
  }

  /** _bind_spec */
  function Parse(value: string): Spec {
    match Halves(value)
    case None => Bad(Malformed)
    case Some((host, text)) =>
      match PyInt(text)
      case None => Bad(PortNotInteger)
      case Some(port) => if 1 <= port <= 65535 then Bound(host, port) else Bad(PortOutOfRange)
  }

  /**
    How a value may spell a host and a port text: a host without a closing bracket in brackets,
    or a non-empty host that does not open with a bracket, before the last colon.
   */
  predicate Spells(value: string, host: string, text: string) {
    || (']' !in host && value == "[" + host + "]:" + text)
    || (host != "" && host[0] != '[' && ':' !in text && text != "" && value == host + ":" + text)
  }

  /** The halves are exactly what the value spells; so no value spells two different pairs. */
  lemma HalvesIff(value: string, host: string, text: string)
    ensures Halves(value) == Some((host, text)) <==> Spells(value, host, text)
  {
    if Halves(value) == Some((host, text)) && value[0] == '[' {
      BracketHalves(value);
    }
    if ']' !in host && value == "[" + host + "]:" + text {
      BracketAt(host, text);
    } else if Spells(value, host, text) {
      assert value == host + [':'] + text;
      SplitLastUnique(value, ':', host, text);
      assert ':' in value && value[0] == host[0];
    }
  }

  /** In a bracketed value the first closing bracket is the one after the host. */
  lemma BracketAt(host: string, text: string)
    requires ']' !in host
    ensures var value := "[" + host + "]:" + text;
      FindFirst(value, ']') == |host| + 1 && Halves(value) == Some((host, text))
  {
    var value := "[" + host + "]:" + text;
    assert value[|host| + 1] == ']' && value[|host| + 2] == ':';
    assert value[..|host| + 1] == "[" + host;
    FirstIs(value, ']', |host| + 1);
    assert value[1..|host| + 1] == host && value[|host| + 3..] == text;
  }

  lemma {:induction false} FirstIs(s: string, c: char, i: nat)
    requires i < |s| && s[i] == c && c !in s[..i]
    ensures FindFirst(s, c) == i
  {
    if i > 0 {
      assert s[0] == s[..i][0];
      assert s[1..][..i - 1] == s[..i][1..];
      FirstIs(s[1..], c, i - 1);
    }
  }

  lemma BracketHalves(value: string)
    requires value != "" && value[0] == '[' && Halves(value).Some?
    ensures var (host, text) := Halves(value).value;
      ']' !in host && value == "[" + host + "]:" + text
  {
    var end := FindFirst(value, ']');
    var host, text := value[1..end], value[end + 2..];
    assert host == value[..end][1..];
    assert value == value[..1] + host + value[end..end + 2] + text;
    assert value[..1] == "[" && value[end..end + 2] == "]:";
  }

  /** What the parser accepts, and as what. */
  lemma AcceptsIff(value: string, host: string, port: int)
    ensures Parse(value) == Bound(host, port) <==>
      1 <= port <= 65535 && exists text :: Spells(value, host, text) && PyInt(text) == Some(port)
  {
    if Parse(value) == Bound(host, port) {
      HalvesIff(value, host, Halves(value).value.1);
    }
    forall text | Spells(value, host, text) && PyInt(text) == Some(port) && 1 <= port <= 65535
      ensures Parse(value) == Bound(host, port)
    {
      HalvesIff(value, host, text);
    }
  }

  /** Which of the three errors a value gets. */
  lemma RejectsIff(value: string)
    ensures Parse(value) == Bad(Malformed) <==> forall host, text :: !Spells(value, host, text)
    ensures Parse(value) == Bad(PortNotInteger)
       <==> exists host, text :: Spells(value, host, text) && PyInt(text) == None
  {
    forall host, text ensures Halves(value) == Some((host, text)) <==> Spells(value, host, text) {
      HalvesIff(value, host, text);
    }
    if Halves(value).Some? {
      var (host, text) := Halves(value).value;
      assert Spells(value, host, text);
    }
    hide Halves, Spells, PyInt;
  }

  /** A host and port as the parser reads them back: bracketed unless the host has a closing bracket. */
  function Render(host: string, port: nat): string {
    if ']' !in host then "[" + host + "]:" + Digits(port) else host + ":" + Digits(port)
  }

  /** Parsing undoes the bracketed form of any host without a closing bracket. */
  lemma ParsesBracketed(host: string, port: nat)
    requires 1 <= port <= 65535 && ']' !in host
    ensures Parse("[" + host + "]:" + Digits(port)) == Bound(host, port)
  {
    PyIntOfDigits(port);
    BracketAt(host, Digits(port));
    hide Digits, PyInt, Halves;
  }

  /** Parsing undoes the plain form of any non-empty host that does not open with a bracket. */
  lemma ParsesPlain(host: string, port: nat)
    requires 1 <= port <= 65535 && host != "" && host[0] != '['
    ensures Parse(host + ":" + Digits(port)) == Bound(host, port)
  {
    PyIntOfDigits(port);
    assert ':' !in Digits(port);
    HalvesIff(host + ":" + Digits(port), host, Digits(port));
    hide Digits, PyInt, Halves;
  }

  /** Whatever was accepted prints to a value that is accepted as the same pair. */
  lemma AcceptedRoundTrips(value: string)
    requires Parse(value).Bound?
    ensures Parse(value).port >= 0
    ensures Parse(Render(Parse(value).host, Parse(value).port)) == Parse(value)
  {
    var (host, text) := Halves(value).value;
    HalvesIff(value, host, text);
    if ']' !in host {
      ParsesBracketed(host, Parse(value).port);
    } else {
      ParsesPlain(host, Parse(value).port);
    }
    hide Digits, PyInt, Halves;
  }

  /** A bare IPv6 address is not refused: the part after its last colon is taken for the port. */
  lemma BareAddressIsCut()
    ensures Parse("::1") == Bound(":", 1)
  {
    ParsesPlain(":", 1);
    assert Digits(1) == [DigitChar(1)] == "1";
    hide *;
    assert ":" + ":" + "1" == "::1";
  }
}
