/**
  The numbers of JSON as Python writes and reads them: integers, and floats in the form of repr().
  A float is a decimal counted in units of 10^-PLACES.
 */
module Numerals {
  import opened Basics
  import opened PyText

  datatype Numeral = Whole(n: int) | Decimal(ticks: int)

  /** Decimal places a float may have here; a float of one second or more never prints more than 16. */
  const PLACES: nat := 20

  function Zeros(k: nat): (z: string)
    ensures |z| == k && forall i :: 0 <= i < k ==> z[i] == '0'
  {
    seq(k, i => '0')
  }

  // ------------------------------------------------------------- printing

  function PrintInt(n: int): string {
    if n < 0 then "-" + Digits(-n) else Digits(n)
  }

  /** The digits that count: those before the trailing zeros. */
  function Significant(d: string): (sig: string)
    ensures |sig| <= |d| && d == sig + Zeros(|d| - |sig|)
    ensures sig != "" ==> sig[|sig| - 1] != '0'
  {
    if d != "" && d[|d| - 1] == '0' then
      var sig := Significant(d[..|d| - 1]);
      assert Zeros(|d| - |sig|) == Zeros(|d| - 1 - |sig|) + "0";
      sig
    else d
  }

  /** Significant digits with the decimal point after the first `point` of them. */
  function Positional(sig: string, point: int): string {
    if point <= 0 then "0." + Zeros(-point) + sig
    else if point >= |sig| then sig + Zeros(point - |sig|) + ".0"
    else sig[..point] + "." + sig[point..]
  }

  function Exponential(sig: string, point: int): string
    requires sig != ""
  {
    sig[..1] + (if |sig| > 1 then "." + sig[1..] else "") + "e" + Exponent(point - 1)
  }

  /** A signed exponent of at least two digits. */
  function Exponent(e: int): string {
    var k: nat := if e < 0 then -e else e;
    (if e < 0 then "-" else "+") + (if k < 10 then "0" else "") + Digits(k)
  }

  /** repr() of a positive float. */
  function ReprPositive(ticks: nat): string
    requires ticks > 0
  {
    var d := Digits(ticks);
    var sig := Significant(d);
    var point: int := |d| - PLACES;
    NoLeadingZero(ticks);
    if -4 < point <= 16 then Positional(sig, point) else Exponential(sig, point)
  }

  /** repr(), the shortest text that reads back as the float; minus zero aside. */
  function Repr(ticks: int): string {
    if ticks == 0 then "0.0" else if ticks < 0 then "-" + ReprPositive(-ticks) else ReprPositive(ticks)
  }

  // -------------------------------------------------------------- parsing

  /** The longest run of digits at the front of t, and what follows it. */
  function TakeDigits(t: string): (r: (string, string))
    ensures t == r.0 + r.1 && AllDigits(r.0)
  {
    if t != "" && IsDigit(t[0]) then
      var (ds, rest) := TakeDigits(t[1..]);
      ([t[0]] + ds, rest)
    else ("", t)
  }

  predicate StartsExponent(t: string) { t != "" && (t[0] == 'e' || t[0] == 'E') }

  /** The exponent at the front of t, zero if there is none. */
  function ParseExponent(t: string): (r: Option<(int, string)>)
    ensures r.Some? ==> |r.value.1| <= |t|
  {
    if !StartsExponent(t) then Some((0, t))
    else
      var signed := |t| > 1 && (t[1] == '+' || t[1] == '-');
      var (ds, rest) := TakeDigits(if signed then t[2..] else t[1..]);
      if ds == "" then None
      else
        var k: int := Value(ds);
        Some((if signed && t[1] == '-' then -k else k, rest))
  }

  /** m times 10^k, if that is a whole number. */
  function Scaled(m: string, k: int): Option<nat>
    requires AllDigits(m)
  {
    if k >= 0 then Some(Value(m + Zeros(k)))
    else if -k <= |m| && m[|m| + k..] == Zeros(-k) then Some(Value(m[..|m| + k]))
    else if Value(m) == 0 then Some(0)
    else None
  }

  /** The digits after a decimal point at the front of t, none if there is no point. */
  function ParseFraction(t: string): (r: Option<(string, string)>)
    ensures r.Some? ==> AllDigits(r.value.0) && |r.value.1| <= |t|
  {
    if t == "" || t[0] != '.' then Some(("", t))
    else
      var (frac, rest) := TakeDigits(t[1..]);
      if frac == "" then None else Some((frac, rest))
  }

  /** A number without its sign: an integer, or a float with no more than PLACES decimals. */
  function ParseUnsigned(t: string): (r: Option<(Numeral, string)>)
    ensures r.Some? ==> |r.value.1| < |t|
  {
    var (ds, rest) := TakeDigits(t);
    if ds == "" || (|ds| > 1 && ds[0] == '0') then None
    else
      match ParseFraction(rest)
      case None => None
      case Some((frac, rest')) =>
        if frac == "" && !StartsExponent(rest') then Some((Whole(Value(ds)), rest'))
        else
          match ParseExponent(rest')
          case None => None
          case Some((e, after)) =>
            match Scaled(ds + frac, e - |frac| + PLACES)
            case None => None
            case Some(n) => Some((Decimal(n), after))
  }

  function Negated(v: Numeral): Numeral {
    match v
    case Whole(n) => Whole(-n)
    case Decimal(ticks) => Decimal(-ticks)
  }

  /** A number at the front of t. */
  function ParseNumeral(t: string): (r: Option<(Numeral, string)>)
    ensures r.Some? ==> |r.value.1| < |t|
  {
    if t != "" && t[0] == '-' then
      match ParseUnsigned(t[1..])
      case None => None
      case Some((v, rest)) => Some((Negated(v), rest))
    else ParseUnsigned(t)
  }

  // ---------------------------------------------------------- round trips

  /** What may follow a number. */
  predicate Ends(rest: string) {
    rest == "" || (!IsDigit(rest[0]) && rest[0] != '.' && rest[0] != 'e' && rest[0] != 'E')
  }

  lemma {:induction false} TakeDigitsStops(ds: string, rest: string)
    requires AllDigits(ds) && (rest == "" || !IsDigit(rest[0]))
    ensures TakeDigits(ds + rest) == (ds, rest)
  {
    if ds == "" {
      assert ds + rest == rest;
    } else {
      assert (ds + rest)[1..] == ds[1..] + rest;
      TakeDigitsStops(ds[1..], rest);
      assert [ds[0]] + ds[1..] == ds;
    }
  }

  /** A printed number has no superfluous leading zero. */
  lemma {:induction false} NoLeadingZero(n: nat)
    ensures |Digits(n)| > 1 ==> Digits(n)[0] != '0'
    ensures n > 0 ==> Digits(n)[0] != '0' && Significant(Digits(n)) != ""
  {
    if n >= 10 { NoLeadingZero(n / 10); }
    var d := Digits(n);
    assert Significant(d) == "" ==> d == Zeros(|d|) && d[0] == '0';
  }

  lemma {:induction false} ValueSkipsZeros(j: nat, s: string)
    requires AllDigits(s)
    ensures AllDigits(Zeros(j) + s) && Value(Zeros(j) + s) == Value(s)
    decreases j + |s|
  {
    var t := Zeros(j) + s;
    if s != "" {
      assert t[..|t| - 1] == Zeros(j) + s[..|s| - 1];
      ValueSkipsZeros(j, s[..|s| - 1]);
    } else if j > 0 {
      assert t[..|t| - 1] == Zeros(j - 1) + "";
      ValueSkipsZeros(j - 1, "");
    }
  }

  lemma WholeRead(n: nat, rest: string)
    requires Ends(rest)
    ensures ParseUnsigned(Digits(n) + rest) == Some((Whole(n), rest))
  {
    hide Digits, Value, TakeDigits, Significant, ParseExponent, Scaled;
    ValueOfDigits(n);
    NoLeadingZero(n);
    TakeDigitsStops(Digits(n), rest);
  }

  /** What a sign in front does. */
  lemma SignRead(t: string, rest: string)
    requires t != "" && IsDigit(t[0])
    ensures ParseNumeral(t + rest) == ParseUnsigned(t + rest)
    ensures ParseNumeral("-" + t + rest) ==
      match ParseUnsigned(t + rest) case None => None case Some((v, after)) => Some((Negated(v), after))
  {
    hide ParseUnsigned;
    assert ("-" + t + rest)[1..] == t + rest;
  }

  lemma WholeRoundTrip(n: int, rest: string)
    requires Ends(rest)
    ensures ParseNumeral(PrintInt(n) + rest) == Some((Whole(n), rest))
  {
    var k: nat := if n < 0 then -n else n;
    hide Digits, ParseUnsigned, ParseNumeral;
    WholeRead(k, rest);
    SignRead(Digits(k), rest);
  }

  lemma ExponentRoundTrip(e: int, rest: string)
    requires rest == "" || !IsDigit(rest[0])
    ensures ParseExponent("e" + Exponent(e) + rest) == Some((e, rest))
  {
    hide Digits, Value, TakeDigits;
    var k: nat := if e < 0 then -e else e;
    var ds := (if k < 10 then "0" else "") + Digits(k);
    var t := "e" + Exponent(e) + rest;
    assert t[2..] == ds + rest;
    TakeDigitsStops(ds, rest);
    ValueOfDigits(k);
    ValueSkipsZeros(if k < 10 then 1 else 0, Digits(k));
    assert ds == Zeros(if k < 10 then 1 else 0) + Digits(k);
  }

  function Point(frac: string): string {
    if frac == "" then "" else "." + frac
  }

  lemma FractionRead(frac: string, tail: string)
    requires AllDigits(frac) && (tail == "" || (!IsDigit(tail[0]) && tail[0] != '.'))
    ensures ParseFraction(Point(frac) + tail) == Some((frac, tail))
  {
    hide TakeDigits;
    TakeDigitsStops(frac, tail);
    if frac == "" {
      assert Point(frac) + tail == tail;
    } else {
      assert (Point(frac) + tail)[1..] == frac + tail;
    }
  }

  /** How a float is read from its parts: the digits before the point, those after it, the exponent. */
  lemma PartsRead(ds: string, frac: string, e: int, tail: string, rest: string, n: nat)
    requires ds != "" && AllDigits(ds) && (|ds| > 1 ==> ds[0] != '0') && AllDigits(frac)
    requires frac != "" || StartsExponent(tail)
    requires tail == "" || (!IsDigit(tail[0]) && tail[0] != '.')
    requires ParseExponent(tail) == Some((e, rest))
    requires Scaled(ds + frac, e - |frac| + PLACES) == Some(n)
    ensures ParseUnsigned(ds + (Point(frac) + tail)) == Some((Decimal(n), rest))
  {
    hide Value, TakeDigits, Digits, ParseFraction, ParseExponent, Scaled;
    TakeDigitsStops(ds, Point(frac) + tail);
    FractionRead(frac, tail);
  }

  lemma EndsTail(rest: string)
    requires Ends(rest)
    ensures ParseExponent(rest) == Some((0, rest)) && (rest == "" || (!IsDigit(rest[0]) && rest[0] != '.'))
  {
  }

  lemma ZerosAdd(j: nat, k: nat)
    ensures Zeros(j) + Zeros(k) == Zeros(j + k) && AllDigits(Zeros(j))
  {
  }

  /** What the scaled digits have to be for a float to be read as sig followed by z zeros. */
  lemma ScaledIs(digits: string, k: nat, j: nat, sig: string, z: nat)
    requires AllDigits(digits) && AllDigits(sig) && digits + Zeros(k) == Zeros(j) + (sig + Zeros(z))
    ensures AllDigits(sig + Zeros(z)) && Scaled(digits, k) == Some(Value(sig + Zeros(z)))
  {
    hide Value;
    ZerosAdd(z, 0);
    ValueSkipsZeros(j, sig + Zeros(z));
  }

  lemma SmallShape(sig: string, j: nat, z: nat, rest: string)
    requires sig != ""
    ensures Positional(sig, 0 - j) + rest == "0" + (Point(Zeros(j) + sig) + rest)
    ensures "0" + (Zeros(j) + sig) + Zeros(z) == Zeros(j + 1) + (sig + Zeros(z))
  {
    OneMoreZero(j);
    hide Zeros;
    var frac := Zeros(j) + sig;
    assert "0." + Zeros(j) + sig == "0." + frac && "0." + frac + rest == "0" + ("." + frac + rest);
    assert "0" + frac + Zeros(z) == ("0" + Zeros(j)) + (sig + Zeros(z));
  }

  lemma OneMoreZero(j: nat)
    ensures Zeros(j + 1) == "0" + Zeros(j)
  {
  }

  lemma DigitsJoin(a: string, b: string)
    requires AllDigits(a) && AllDigits(b)
    ensures AllDigits(a + b) && AllDigits("0") && AllDigits(a + b + "0")
  {
  }

  lemma ZeroIsDigit()
    ensures AllDigits("0")
  {
  }

  lemma DigitsSplit(a: string, i: nat)
    requires AllDigits(a) && i <= |a|
    ensures AllDigits(a[..i]) && AllDigits(a[i..])
  {
  }

  /** The value 0.000sig is read off. */
  lemma SmallRead(sig: string, z: nat, rest: string)
    requires sig != "" && AllDigits(sig) && Ends(rest) && |sig| + z <= PLACES
    ensures AllDigits(sig + Zeros(z))
    ensures ParseUnsigned(Positional(sig, |sig| + z - PLACES) + rest) == Some((Decimal(Value(sig + Zeros(z))), rest))
  {
    hide Value, ParseUnsigned, Positional, Point, Scaled, ParseExponent, Ends, Zeros, AllDigits;
    var j: nat := PLACES - |sig| - z;
    var frac := Zeros(j) + sig;
    ZerosAdd(j, 0);
    DigitsJoin(Zeros(j), sig);
    ZeroIsDigit();
    DigitsJoin("0", frac);
    SmallShape(sig, j, z, rest);
    ScaledIs("0" + frac, z, j + 1, sig, z);
    EndsTail(rest);
    PartsRead("0", frac, 0, rest, rest, Value(sig + Zeros(z)));
  }

  lemma LargeShape(sig: string, j: nat, rest: string)
    requires sig != ""
    ensures Positional(sig, |sig| + j) + rest == sig + Zeros(j) + (Point("0") + rest)
    ensures sig + Zeros(j) + "0" + Zeros(PLACES - 1) == Zeros(0) + (sig + Zeros(j + PLACES))
  {
    assert Zeros(j + PLACES) == Zeros(j) + ("0" + Zeros(PLACES - 1));
  }

  /** The value sig000.0 is read off. */
  lemma LargeRead(sig: string, z: nat, rest: string)
    requires sig != "" && AllDigits(sig) && sig[0] != '0' && Ends(rest) && z >= PLACES
    ensures AllDigits(sig + Zeros(z))
    ensures ParseUnsigned(Positional(sig, |sig| + z - PLACES) + rest) == Some((Decimal(Value(sig + Zeros(z))), rest))
  {
    hide Value, ParseUnsigned, Positional, Point, Scaled, ParseExponent, Ends, Zeros, AllDigits;
    var j: nat := z - PLACES;
    ZerosAdd(j, 0);
    DigitsJoin(sig, Zeros(j));
    LargeShape(sig, j, rest);
    ScaledIs(sig + Zeros(j) + "0", PLACES - 1, 0, sig, z);
    EndsTail(rest);
    PartsRead(sig + Zeros(j), "0", 0, rest, rest, Value(sig + Zeros(z)));
  }

  lemma MiddleShape(sig: string, point: nat, z: nat, rest: string)
    requires 0 < point < |sig|
    ensures Positional(sig, point) + rest == sig[..point] + (Point(sig[point..]) + rest)
    ensures sig[..point] + sig[point..] == sig && sig + Zeros(z) == Zeros(0) + (sig + Zeros(z))
  {
  }

  /** The value sig.sig is read off. */
  lemma MiddleRead(sig: string, z: nat, rest: string)
    requires sig != "" && AllDigits(sig) && sig[0] != '0' && Ends(rest) && z < PLACES < |sig| + z
    ensures AllDigits(sig + Zeros(z))
    ensures ParseUnsigned(Positional(sig, |sig| + z - PLACES) + rest) == Some((Decimal(Value(sig + Zeros(z))), rest))
  {
    hide Value, ParseUnsigned, Positional, Point, Scaled, ParseExponent, Ends, Zeros, AllDigits;
    var point: nat := |sig| + z - PLACES;
    DigitsSplit(sig, point);
    MiddleShape(sig, point, z, rest);
    ScaledIs(sig, z, 0, sig, z);
    EndsTail(rest);
    PartsRead(sig[..point], sig[point..], 0, rest, rest, Value(sig + Zeros(z)));
  }

  /** What stands behind the digits of a float in exponential form. */
  function Tail(e: int, rest: string): string {
    "e" + Exponent(e) + rest
  }

  /** The first digit and the others, between which the point stands. */
  lemma ExponentialShape(sig: string, point: int, rest: string) returns (head: string, more: string)
    requires sig != "" && AllDigits(sig)
    ensures |head| == 1 && sig == head + more && AllDigits(head) && AllDigits(more)
    ensures Exponential(sig, point) + rest == head + (Point(more) + Tail(point - 1, rest))
  {
    hide Exponent;
    head, more := sig[..1], sig[1..];
    var point', tail := Point(more), "e" + Exponent(point - 1);
    assert Exponential(sig, point) == head + point' + tail;
    assert head + point' + tail + rest == head + (point' + (tail + rest));
  }

  lemma NoZeros()
    ensures Zeros(0) == ""
  {
  }

  lemma ExponentialRead(sig: string, z: nat, point: int, rest: string)
    requires sig != "" && AllDigits(sig) && Ends(rest) && point == |sig| + z - PLACES
    ensures AllDigits(sig + Zeros(z))
    ensures ParseUnsigned(Exponential(sig, point) + rest) == Some((Decimal(Value(sig + Zeros(z))), rest))
  {
    hide *;
    var head, more := ExponentialShape(sig, point, rest);
    ExponentialParts(head, more, sig, z, point, rest);
  }

  lemma ExponentialParts(head: string, more: string, sig: string, z: nat, point: int, rest: string)
    requires AllDigits(head) && AllDigits(more) && |head| == 1 && sig == head + more && AllDigits(sig) && Ends(rest)
    requires point == |sig| + z - PLACES
    ensures AllDigits(sig + Zeros(z))
    ensures ParseUnsigned(head + (Point(more) + Tail(point - 1, rest))) == Some((Decimal(Value(sig + Zeros(z))), rest))
  {
    hide *;
    ExponentTail(point - 1, rest);
    NoZeros();
    assert Zeros(0) + (sig + Zeros(z)) == sig + Zeros(z);
    ScaledIs(sig, z, 0, sig, z);
    assert point - 1 - |more| + PLACES == z;
    PartsRead(head, more, point - 1, Tail(point - 1, rest), rest, Value(sig + Zeros(z)));
  }

  lemma ExponentTail(e: int, rest: string)
    requires Ends(rest)
    ensures var tail := Tail(e, rest);
      && ParseExponent(tail) == Some((e, rest))
      && StartsExponent(tail) && tail != "" && !IsDigit(tail[0]) && tail[0] != '.'
  {
    ExponentRoundTrip(e, rest);
    hide Exponent, ParseExponent;
  }

  lemma SignificantIs(k: nat)
    requires k > 0
    ensures var d := Digits(k); var sig := Significant(d);
      sig != "" && AllDigits(sig) && sig[0] != '0' && d == sig + Zeros(|d| - |sig|)
  {
    NoLeadingZero(k);
    var d := Digits(k);
    var sig := Significant(d);
    assert forall i :: 0 <= i < |sig| ==> sig[i] == d[i];
    hide Digits, Significant;
  }

  lemma PositiveRead(k: nat, rest: string)
    requires k > 0 && Ends(rest)
    ensures ParseUnsigned(ReprPositive(k) + rest) == Some((Decimal(k), rest))
  {
    hide Digits, Value, Significant, ParseUnsigned, Positional, Exponential, Zeros;
    SignificantIs(k);
    ValueOfDigits(k);
    var d := Digits(k);
    var sig := Significant(d);
    var z := |d| - |sig|;
    if !(-4 < |d| - PLACES <= 16) {
      ExponentialRead(sig, z, |d| - PLACES, rest);
    } else if |d| <= PLACES {
      SmallRead(sig, z, rest);
    } else if z >= PLACES {
      LargeRead(sig, z, rest);
    } else {
      MiddleRead(sig, z, rest);
    }
  }

  lemma ZeroRead(rest: string)
    requires Ends(rest)
    ensures ParseUnsigned("0.0" + rest) == Some((Decimal(0), rest))
  {
    ValueSkipsZeros(PLACES + 1, "");
    assert "0" + "0" + Zeros(PLACES - 1) == Zeros(PLACES + 1) + "";
    assert AllDigits("00") && Scaled("0" + "0", PLACES - 1) == Some(0);
    EndsTail(rest);
    assert "0.0" + rest == "0" + (Point("0") + rest);
    hide Value, Zeros, ParseUnsigned, Point, Scaled;
    PartsRead("0", "0", 0, rest, rest, 0);
  }

  /** Reading what repr() prints gives back the float. */
  lemma DecimalRoundTrip(ticks: int, rest: string)
    requires Ends(rest)
    ensures ParseNumeral(Repr(ticks) + rest) == Some((Decimal(ticks), rest))
  {
    PrintsAreNumerals(ticks);
    hide ReprPositive, ParseUnsigned, ParseNumeral, NumeralText;
    if ticks == 0 {
      ZeroRead(rest);
      SignRead("0.0", rest);
    } else {
      var k: nat := if ticks < 0 then -ticks else ticks;
      PositiveRead(k, rest);
      PositiveStarts(k);
      SignRead(ReprPositive(k), rest);
    }
  }

  /** A printed number starts with a sign or a digit, and is ASCII. */
  predicate NumeralText(t: string) {
    t != "" && (t[0] == '-' || IsDigit(t[0])) && forall i :: 0 <= i < |t| ==> t[i] as int < 128
  }

  lemma DigitsAreAscii(d: string)
    requires AllDigits(d)
    ensures forall i :: 0 <= i < |d| ==> d[i] as int < 128
  {
  }

  lemma PositionalStarts(sig: string, point: int)
    requires sig != "" && AllDigits(sig)
    ensures NumeralText(Positional(sig, point)) && Positional(sig, point) != "" && IsDigit(Positional(sig, point)[0])
  {
  }

  lemma ExponentialStarts(sig: string, point: int)
    requires sig != "" && AllDigits(sig)
    ensures NumeralText(Exponential(sig, point)) && Exponential(sig, point) != "" && IsDigit(Exponential(sig, point)[0])
  {
    var e: int := point - 1;
    var k: nat := if e < 0 then -e else e;
    DigitsAreAscii(Digits(k));
    hide Digits;
    assert forall i :: 0 <= i < |Exponent(e)| ==> Exponent(e)[i] as int < 128;
    hide Exponent;
  }

  lemma PositiveStarts(k: nat)
    requires k > 0
    ensures ReprPositive(k) != "" && IsDigit(ReprPositive(k)[0]) && NumeralText(ReprPositive(k))
  {
    hide Digits, Significant, Positional, Exponential, NumeralText;
    SignificantIs(k);
    var d := Digits(k);
    PositionalStarts(Significant(d), |d| - PLACES);
    ExponentialStarts(Significant(d), |d| - PLACES);
  }

  lemma PrintsAreNumerals(n: int)
    ensures NumeralText(PrintInt(n)) && NumeralText(Repr(n))
  {
    if n != 0 { PositiveStarts(if n < 0 then -n else n); }
    hide ReprPositive;
  }
}
