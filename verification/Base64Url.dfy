/**
  base64.urlsafe_b64encode and base64.urlsafe_b64decode, and bed's unpadded form of them.
  The alphabet is the one of section 5 of RFC 4648; omitting the padding is section 3.2.
 */
module Base64Url {
  import opened Basics

  type byte = b: int | 0 <= b < 256

  /** The symbol of one six-bit group. */
  function Symbol(v: nat): (c: char)
    requires v < 64
    ensures IsSymbol(c)
  {
    if v < 26 then ('A' as int + v) as char
    else if v < 52 then ('a' as int + (v - 26)) as char
    else if v < 62 then ('0' as int + (v - 52)) as char
    else if v == 62 then '-' else '_'
  }

  predicate IsSymbol(c: char) {
    'A' <= c <= 'Z' || 'a' <= c <= 'z' || '0' <= c <= '9' || c == '-' || c == '_'
  }

  predicate AllSymbols(s: string) {
    forall i :: 0 <= i < |s| ==> IsSymbol(s[i])
  }

  /** The six bits a character stands for once '-' and '_' are translated to '+' and '/'. */
  function Sextet(c: char): (v: Option<nat>)
    ensures v.Some? ==> v.value < 64
  {
    if 'A' <= c <= 'Z' then Some(c as int - 'A' as int)
    else if 'a' <= c <= 'z' then Some(c as int - 'a' as int + 26)
    else if '0' <= c <= '9' then Some(c as int - '0' as int + 52)
    else if c == '-' || c == '+' then Some(62)
    else if c == '_' || c == '/' then Some(63)
    else None
  }

  /** The symbols of one whole group of three bytes, and of a last group of one or two. */
  function Quad(a: byte, b: byte, c: byte): (q: string)
    ensures |q| == 4 && AllSymbols(q)
  {
    [Symbol(a / 4), Symbol(a % 4 * 16 + b / 16), Symbol(b % 16 * 4 + c / 64), Symbol(c % 64)]
  }

  function Last1(a: byte): (q: string)
    ensures |q| == 2 && AllSymbols(q)
  {
    [Symbol(a / 4), Symbol(a % 4 * 16)]
  }

  function Last2(a: byte, b: byte): (q: string)
    ensures |q| == 3 && AllSymbols(q)
  {
    [Symbol(a / 4), Symbol(a % 4 * 16 + b / 16), Symbol(b % 16 * 4)]
  }

  /** urlsafe_b64encode, padding included. */
  function EncodePadded(raw: seq<byte>): string {
    if raw == [] then ""
    else if |raw| == 1 then Last1(raw[0]) + "=="
    else if |raw| == 2 then Last2(raw[0], raw[1]) + "="
    else Quad(raw[0], raw[1], raw[2]) + EncodePadded(raw[3..])
  }

  /** rstrip("=") */
  function RStripPad(s: string): string {
    if s != "" && s[|s| - 1] == '=' then RStripPad(s[..|s| - 1]) else s
  }

  function Encode(raw: seq<byte>): string {
    RStripPad(EncodePadded(raw))
  }

  /** "=" * (-n % 4), with Python's floored remainder. */
  function Padding(n: nat): string {
    if n % 4 == 0 then "" else if n % 4 == 1 then "===" else if n % 4 == 2 then "==" else "="
  }

  /** What is left over from the current quad of symbols after pos of them. */
  predicate Leftover(pos: nat, left: nat) {
    match pos
    case 0 => left == 0
    case 1 => left < 64
    case 2 => left < 16
    case 3 => left < 4
    case _ => false
  }

  /** The byte the symbol v completes. */
  function Emit(pos: nat, left: nat, v: nat): byte
    requires 1 <= pos && Leftover(pos, left) && v < 64
  {
    if pos == 1 then left * 4 + v / 16 else if pos == 2 then left * 16 + v / 4 else left * 64 + v
  }

  /** The bits of v left for the next byte. */
  function Carry(pos: nat, v: nat): (left: nat)
    requires pos < 4 && v < 64
    ensures Leftover((pos + 1) % 4, left)
  {
    if pos == 0 then v else if pos == 1 then v % 16 else if pos == 2 then v % 4 else 0
  }

  /**
    The decoding loop of binascii.a2b_base64 in its default, lenient mode: characters outside
    the alphabet are skipped, and a completed run of padding ends the input.
   */
  function FromBase64(t: string, pos: nat, left: nat, pads: nat): Option<seq<byte>>
    requires Leftover(pos, left)
    decreases |t|
  {
    if t == "" then
      if pos == 0 then Some([]) else None
    else if t[0] == '=' then
      if pos >= 2 && pos + pads + 1 >= 4 then Some([])
      else FromBase64(t[1..], pos, left, if pos >= 2 then pads + 1 else pads)
    else
      match Sextet(t[0])
      case None => FromBase64(t[1..], pos, left, pads)
      case Some(v) =>
        var rest := FromBase64(t[1..], (pos + 1) % 4, Carry(pos, v), 0);
        if pos == 0 then rest else Prepend(Emit(pos, left, v), rest)
  }

  function Prepend(b: byte, rest: Option<seq<byte>>): Option<seq<byte>> {
    match rest
    case None => None
    case Some(bs) => Some([b] + bs)
  }

  /** bed's decoder: restore the padding, then decode. */
  function Decode(text: string): Option<seq<byte>> {
    FromBase64(text + Padding(|text|), 0, 0, 0)
  }

  // --------------------------------------------------------------- proofs

  lemma SextetOfSymbol(v: nat)
    requires v < 64
    ensures Sextet(Symbol(v)) == Some(v) && Symbol(v) != '='
  {
  }

  lemma SymbolOfSextet(c: char)
    requires IsSymbol(c)
    ensures Sextet(c).Some? && Symbol(Sextet(c).value) == c
  {
  }

  /** One symbol's step of the decoding loop. */
  lemma SymbolStep(v: nat, rest: string, pos: nat, left: nat)
    requires v < 64 && Leftover(pos, left)
    ensures FromBase64([Symbol(v)] + rest, pos, left, 0)
         == var more := FromBase64(rest, (pos + 1) % 4, Carry(pos, v), 0);
            if pos == 0 then more else Prepend(Emit(pos, left, v), more)
  {
    SextetOfSymbol(v);
    assert ([Symbol(v)] + rest)[1..] == rest;
  }

  /** Four symbols decode to three bytes and leave the loop where it started. */
  lemma QuadStep(a: byte, b: byte, c: byte, rest: string)
    ensures FromBase64(Quad(a, b, c) + rest, 0, 0, 0)
         == Prepend(a, Prepend(b, Prepend(c, FromBase64(rest, 0, 0, 0))))
  {
    hide FromBase64, Symbol;
    var v0, v1, v2, v3 := a / 4, a % 4 * 16 + b / 16, b % 16 * 4 + c / 64, c % 64;
    assert v1 / 16 == a % 4 && v1 % 16 == b / 16;
    assert v2 / 4 == b % 16 && v2 % 4 == c / 64;
    var t1 := [Symbol(v1), Symbol(v2), Symbol(v3)] + rest;
    var t2 := [Symbol(v2), Symbol(v3)] + rest;
    var t3 := [Symbol(v3)] + rest;
    assert Quad(a, b, c) + rest == [Symbol(v0)] + t1;
    assert t1 == [Symbol(v1)] + t2 && t2 == [Symbol(v2)] + t3;
    SymbolStep(v0, t1, 0, 0);
    SymbolStep(v1, t2, 1, v0);
    SymbolStep(v2, t3, 2, v1 % 16);
    SymbolStep(v3, rest, 3, v2 % 4);
  }

  /** Padding after two or three symbols ends the input, whatever bits were left over. */
  lemma PaddingEnds(left: nat)
    ensures left < 16 ==> FromBase64("==", 2, left, 0) == Some([])
    ensures left < 4 ==> FromBase64("=", 3, left, 0) == Some([])
  {
    assert "=="[1..] == "=";
    assert left < 16 ==> FromBase64("=", 2, left, 1) == Some([]);
  }

  /** A last group of one byte. */
  lemma OneByteTail(a: byte)
    ensures FromBase64(Last1(a) + "==", 0, 0, 0) == Some([a])
  {
    hide FromBase64, Symbol;
    var v0, v1 := a / 4, a % 4 * 16;
    var t1 := [Symbol(v1)] + "==";
    assert Last1(a) + "==" == [Symbol(v0)] + t1;
    SymbolStep(v0, t1, 0, 0);
    SymbolStep(v1, "==", 1, v0);
    PaddingEnds(v1 % 16);
    var none: seq<byte> := [];
    assert [a] + none == [a];
  }

  /** A last group of two bytes. */
  lemma TwoByteTail(a: byte, b: byte)
    ensures FromBase64(Last2(a, b) + "=", 0, 0, 0) == Some([a, b])
  {
    hide FromBase64, Symbol;
    var v0, v1, v2 := a / 4, a % 4 * 16 + b / 16, b % 16 * 4;
    assert v1 / 16 == a % 4 && v1 % 16 == b / 16;
    var t1 := [Symbol(v1), Symbol(v2)] + "=";
    var t2 := [Symbol(v2)] + "=";
    assert Last2(a, b) + "=" == [Symbol(v0)] + t1 && t1 == [Symbol(v1)] + t2;
    SymbolStep(v0, t1, 0, 0);
    SymbolStep(v1, t2, 1, v0);
    SymbolStep(v2, "=", 2, v1 % 16);
    PaddingEnds(v2 % 4);
    var none: seq<byte> := [];
    assert [a] + ([b] + none) == [a, b];
  }

  lemma Regroup(raw: seq<byte>)
    requires |raw| >= 3
    ensures Prepend(raw[0], Prepend(raw[1], Prepend(raw[2], Some(raw[3..])))) == Some(raw)
  {
    assert raw == [raw[0]] + ([raw[1]] + ([raw[2]] + raw[3..]));
  }

  /** The padded encoding decodes to the bytes it was made from. */
  lemma {:induction false} PaddedRoundTrip(raw: seq<byte>)
    ensures FromBase64(EncodePadded(raw), 0, 0, 0) == Some(raw)
  {
    if |raw| == 0 {
    } else if |raw| == 1 {
      hide Last1, FromBase64;
      OneByteTail(raw[0]);
      assert raw == [raw[0]];
    } else if |raw| == 2 {
      hide Last2, FromBase64;
      TwoByteTail(raw[0], raw[1]);
      assert raw == [raw[0], raw[1]];
    } else {
      assert EncodePadded(raw) == Quad(raw[0], raw[1], raw[2]) + EncodePadded(raw[3..]);
      hide EncodePadded, Quad, FromBase64, Prepend;
      QuadStep(raw[0], raw[1], raw[2], EncodePadded(raw[3..]));
      PaddedRoundTrip(raw[3..]);
      Regroup(raw);
    }
  }

  /** The encoding without its padding. */
  function Unpadded(raw: seq<byte>): (body: string)
    ensures AllSymbols(body)
    ensures |body| % 4 != 1 && (raw != [] ==> body != "")
  {
    if raw == [] then ""
    else if |raw| == 1 then Last1(raw[0])
    else if |raw| == 2 then Last2(raw[0], raw[1])
    else Quad(raw[0], raw[1], raw[2]) + Unpadded(raw[3..])
  }

  /** The padded encoding is the unpadded symbols plus the padding their number calls for. */
  lemma {:induction false} PaddedShape(raw: seq<byte>)
    ensures EncodePadded(raw) == Unpadded(raw) + Padding(|Unpadded(raw)|)
  {
    hide Quad, Last1, Last2, IsSymbol, AllSymbols;
    if |raw| >= 3 {
      PaddedShape(raw[3..]);
      assert Padding(|Unpadded(raw)|) == Padding(|Unpadded(raw[3..])|);
    }
  }

  /** Stripping '=' from the right gives back a run of symbols. */
  lemma {:induction false} StripPadding(body: string, pad: string)
    requires AllSymbols(body) && (forall i :: 0 <= i < |pad| ==> pad[i] == '=')
    ensures RStripPad(body + pad) == body
  {
    if pad == "" {
      assert body + pad == body;
    } else {
      var t := body + pad;
      assert t[..|t| - 1] == body + pad[..|pad| - 1];
      StripPadding(body, pad[..|pad| - 1]);
    }
  }

  /** The padded encoding is the unpadded one plus exactly the padding its length calls for. */
  lemma EncodeShape(raw: seq<byte>)
    ensures EncodePadded(raw) == Encode(raw) + Padding(|Encode(raw)|)
    ensures AllSymbols(Encode(raw))
    ensures |Encode(raw)| % 4 != 1
    ensures raw != [] ==> Encode(raw) != ""
  {
    PaddedShape(raw);
    StripPadding(Unpadded(raw), Padding(|Unpadded(raw)|));
  }

  /** _b64decode(_b64encode(raw)) == raw, for every length modulo 3. */
  lemma RoundTrip(raw: seq<byte>)
    ensures Decode(Encode(raw)) == Some(raw)
  {
    EncodeShape(raw);
    PaddedRoundTrip(raw);
  }

  /** A text whose length is one more than a multiple of four never decodes without padding. */
  lemma LengthOneModFour(t: string)
    requires AllSymbols(t)
    ensures Decode(t).Some? <==> |t| % 4 != 1
  {
    SymbolsDecode(t, 0, 0);
  }

  /** Padding restored after pos symbols of a quad completes it, unless pos is 1. */
  lemma PaddingCompletes(pos: nat, left: nat)
    requires Leftover(pos, left)
    ensures FromBase64(Padding(pos), pos, left, 0).Some? <==> pos != 1
  {
    if pos == 1 {
      assert "==="[1..] == "==" && "=="[1..] == "=" && "="[1..] == "";
      assert FromBase64("=", 1, left, 0) == None;
      assert FromBase64("==", 1, left, 0) == None;
    } else if pos == 2 || pos == 3 {
      PaddingEnds(left);
    }
  }

  /** How the loop ends after a run of symbols and the padding bed restores. */
  lemma {:induction false} SymbolsDecode(t: string, pos: nat, left: nat)
    requires AllSymbols(t) && Leftover(pos, left)
    ensures FromBase64(t + Padding(pos + |t|), pos, left, 0).Some? <==> (pos + |t|) % 4 != 1
    decreases |t|
  {
    hide Sextet, Symbol;
    var pad := Padding(pos + |t|);
    if t == "" {
      assert t + pad == pad;
      PaddingCompletes(pos, left);
    } else {
      SymbolOfSextet(t[0]);
      var v := Sextet(t[0]).value;
      var next := (pos + 1) % 4;
      assert t + pad == [Symbol(v)] + (t[1..] + pad);
      assert pad == Padding(next + |t[1..]|);
      hide Padding, Carry, Emit, FromBase64;
      SymbolStep(v, t[1..] + pad, pos, left);
      SymbolsDecode(t[1..], next, Carry(pos, v));
    }
  }
}
