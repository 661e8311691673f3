/**
  bed's token codec: base64url(json(claims)) "." hex(mac). The keyed MAC (HMAC-SHA256 under the
  instance secret) is a parameter: any function from text to 64 hexadecimal digits.
 */
module TokenCodec {
  import opened Basics
  import opened PyText
  import opened FlatJson
  import opened Numerals
  import opened Tokens
  import B64 = Base64Url

  predicate IsHexDigest(d: string) {
    |d| == 64 && forall i :: 0 <= i < |d| ==> '0' <= d[i] <= '9' || 'a' <= d[i] <= 'f'
  }

  type Mac = f: string -> string | forall s :: IsHexDigest(f(s))
    witness s => seq(64, i => '0')

  /** The dict handed to json.dumps, its items in sorted key order. */
  function Members(c: Claims): seq<Member> {
    [ Member("bed_instance_id", JStr(c.instanceId)),
      Member("expires_at", JFloat(c.expiresAt)),
      Member("is_sysop", JBool(c.isSysop)),
      Member("issued_at", JFloat(c.issuedAt)),
      Member("loginid", if c.loginid.Some? then JStr(c.loginid.value) else JNull),
      Member("moniker", JStr(c.moniker)),
      Member("session_id", JStr(c.sessionId)),
      Member("version", JInt(1)),
      Member("websocket_id", JStr(c.websocketId)) ]
  }

  function ToBytes(s: string): seq<B64.byte>
    requires IsAscii(s)
  {
    seq(|s|, i requires 0 <= i < |s| => s[i] as int)
  }

  /** The text of ASCII bytes. */
  function FromBytes(bs: seq<B64.byte>): Option<string> {
    if forall i :: 0 <= i < |bs| ==> bs[i] < 128
    then Some(seq(|bs|, i requires 0 <= i < |bs| && bs[i] < 128 => bs[i] as char))
    else None
  }

  function Payload(c: Claims): string {
    ObjectIsAscii(Members(c));
    B64.Encode(ToBytes(PrintObject(Members(c))))
  }

  /** _encode_token */
  function EncodeToken(c: Claims, mac: Mac): string {
    Payload(c) + "." + mac(Payload(c))
  }

  /** What _decode_token returns or raises, before any field of the dict is read. */
  datatype ObjectDecoding = Object(items: seq<Member>) | TokenError | OtherException

  /** dict.get: the last item with that key wins. */
  function Lookup(items: seq<Member>, key: string): Option<Json> {
    if items == [] then None
    else
      var last := items[|items| - 1];
      if last.key == key then Some(last.value) else Lookup(items[..|items| - 1], key)
  }

  /** isinstance(version, int) and version in {1}: True is an int equal to 1 in Python. */
  predicate SupportedVersion(items: seq<Member>) {
    match Lookup(items, "version")
    case Some(JInt(n)) => n == 1
    case Some(JBool(b)) => b
    case _ => false
  }

  /** _decode_token */
  function DecodeObject(token: string, mac: Mac): ObjectDecoding {
    match SplitLast(token, '.')
    case None => TokenError
    case Some((payload, tag)) =>
      if payload == "" || tag == "" then TokenError
      else if !IsAscii(payload) then OtherException      // str.encode("ascii")
      else if !IsAscii(tag) then OtherException          // hmac.compare_digest on str
      else if tag != mac(payload) then TokenError
      else
        match B64.Decode(payload)
        case None => TokenError
        case Some(bytes) =>
          match FromBytes(bytes)
          case None => TokenError
          case Some(text) =>
            match ParseObject(text)
            case None => TokenError
            case Some(items) => if SupportedVersion(items) then Object(items) else TokenError
  }

  /** claims.get(key) read as text, a number, a flag; None where bed never mints such a value. */
  function TextOf(v: Option<Json>): Option<string> {
    match v
    case None => Some("")
    case Some(JNull) => Some("")
    case Some(JStr(s)) => Some(s)
    case _ => None
  }

  function PowerOfTen(k: nat): nat {
    if k == 0 then 1 else 10 * PowerOfTen(k - 1)
  }

  /** A number in ticks, as all timestamps are. */
  function NumberOf(v: Option<Json>): Option<int> {
    match v
    case None => Some(0)
    case Some(JNull) => Some(0)
    case Some(JInt(n)) => Some(n * PowerOfTen(PLACES))
    case Some(JFloat(ticks)) => Some(ticks)
    case _ => None
  }

  function FlagOf(v: Option<Json>): Option<bool> {
    match v
    case None => Some(false)
    case Some(JNull) => Some(false)
    case Some(JBool(b)) => Some(b)
    case _ => None
  }

  function LoginidOf(v: Option<Json>): Option<Option<string>> {
    match v
    case None => Some(None)
    case Some(JNull) => Some(None)
    case Some(JStr(s)) => Some(Some(s))
    case _ => None
  }

  /** The claims the handlers read out of the decoded dict. */
  function View(items: seq<Member>): Option<Claims> {
    match (TextOf(Lookup(items, "moniker")), NumberOf(Lookup(items, "issued_at")),
           NumberOf(Lookup(items, "expires_at")), TextOf(Lookup(items, "session_id")))
    case (Some(moniker), Some(issuedAt), Some(expiresAt), Some(sessionId)) =>
      (match (FlagOf(Lookup(items, "is_sysop")), TextOf(Lookup(items, "bed_instance_id")),
              TextOf(Lookup(items, "websocket_id")), LoginidOf(Lookup(items, "loginid")))
       case (Some(isSysop), Some(instanceId), Some(websocketId), Some(loginid)) =>
         Some(Claims(moniker, issuedAt, expiresAt, sessionId, isSysop, instanceId, websocketId, loginid))
       case _ => None)
    case _ => None
  }

  function DecodeToken(token: string, mac: Mac): Decoding {
    match DecodeObject(token, mac)
    case TokenError => Invalid
    case OtherException => Escapes
    case Object(items) =>
      match View(items)
      case None => Invalid
      case Some(c) => Decoded(c)
  }

  /** The codec the services use. */
  function BedCodec(mac: Mac): Codec {
    Codec(c => EncodeToken(c, mac), t => DecodeToken(t, mac))
  }

  // --------------------------------------------------------------- proofs

  lemma BytesRoundTrip(s: string)
    requires IsAscii(s)
    ensures FromBytes(ToBytes(s)) == Some(s)
  {
    var bs := ToBytes(s);
    assert seq(|bs|, i requires 0 <= i < |bs| && bs[i] < 128 => bs[i] as char) == s;
  }

  /** Looking up a key that occurs once finds its value. */
  lemma {:induction false} LookupUnique(items: seq<Member>, i: nat)
    requires i < |items|
    requires forall j :: 0 <= j < |items| && j != i ==> items[j].key != items[i].key
    ensures Lookup(items, items[i].key) == Some(items[i].value)
  {
    if i != |items| - 1 {
      LookupUnique(items[..|items| - 1], i);
    }
  }

  lemma KeysDiffer(c: Claims)
    ensures |Members(c)| == 9
    ensures forall i, j :: 0 <= i < j < 9 ==> Members(c)[i].key != Members(c)[j].key
  {
    assert "expires_at"[0] != "session_id"[0];
    assert "loginid"[0] != "moniker"[0] && "loginid"[0] != "version"[0] && "moniker"[0] != "version"[0];
  }

  /** Reading the claims back out of the dict they were put into. */
  lemma ViewOfMembers(c: Claims)
    ensures View(Members(c)) == Some(c) && SupportedVersion(Members(c))
  {
    KeysDiffer(c);
    var ms := Members(c);
    LookupUnique(ms, 0); LookupUnique(ms, 1); LookupUnique(ms, 2);
    LookupUnique(ms, 3); LookupUnique(ms, 4); LookupUnique(ms, 5);
    LookupUnique(ms, 6); LookupUnique(ms, 7); LookupUnique(ms, 8);
    hide Lookup;
  }

  lemma PayloadShape(c: Claims)
    ensures Payload(c) != "" && B64.AllSymbols(Payload(c)) && IsAscii(Payload(c))
    ensures B64.Decode(Payload(c)).Some?
    ensures FromBytes(B64.Decode(Payload(c)).value) == Some(PrintObject(Members(c)))
  {
    hide B64.Encode, B64.Decode, PrintObject, Members, FromBytes;
    ObjectIsAscii(Members(c));
    var text := PrintObject(Members(c));
    BytesRoundTrip(text);
    B64.EncodeShape(ToBytes(text));
    B64.RoundTrip(ToBytes(text));
    PrintedNonEmpty(Members(c));
  }

  lemma PrintedNonEmpty(ms: seq<Member>)
    ensures PrintObject(ms) != ""
  {
    hide PrintMembers;
  }

  /** decode(encode(claims)) == claims, for every version-1 claims and every MAC. */
  lemma RoundTrip(c: Claims, mac: Mac)
    ensures DecodeObject(EncodeToken(c, mac), mac) == Object(Members(c))
    ensures DecodeToken(EncodeToken(c, mac), mac) == Decoded(c)
  {
    hide B64.Encode, B64.Decode, PrintObject, Members, FromBytes, ParseObject, View, SupportedVersion, Payload;
    PayloadShape(c);
    SplitLastUnique(EncodeToken(c, mac), '.', Payload(c), mac(Payload(c)));
    ObjectRoundTrip(Members(c));
    ViewOfMembers(c);
  }

  lemma NoSpace(c: char)
    requires B64.IsSymbol(c) || c == '.' || '0' <= c <= '9' || 'a' <= c <= 'f'
    ensures !IsSpace(c)
  {
  }

  lemma JoinedIsStripped(payload: string, tag: string)
    requires B64.AllSymbols(payload) && IsHexDigest(tag)
    ensures Strip(payload + "." + tag) == payload + "." + tag
  {
    hide Strip, IsSpace, B64.IsSymbol;
    var t := payload + "." + tag;
    forall i | 0 <= i < |t| ensures !IsSpace(t[i]) {
      NoSpace(t[i]);
    }
    StripKeeps(t);
  }

  /** A minted token is non-empty and has no whitespace for strip() to remove. */
  lemma TokenIsStripped(c: Claims, mac: Mac)
    ensures EncodeToken(c, mac) != "" && Strip(EncodeToken(c, mac)) == EncodeToken(c, mac)
  {
    hide Payload, Strip, B64.AllSymbols, IsHexDigest;
    PayloadShape(c);
    JoinedIsStripped(Payload(c), mac(Payload(c)));
  }

  /** The codec bed uses meets what the services rely on. */
  lemma BedCodecIsFaithful(mac: Mac)
    ensures Faithful(BedCodec(mac))
  {
    hide EncodeToken, DecodeToken, Strip;
    forall c: Claims
      ensures BedCodec(mac).decode(BedCodec(mac).encode(c)) == Decoded(c)
           && BedCodec(mac).encode(c) != "" && Strip(BedCodec(mac).encode(c)) == BedCodec(mac).encode(c)
    {
      RoundTrip(c, mac);
      TokenIsStripped(c, mac);
    }
  }

  /** Distinct claims give distinct tokens. */
  lemma Injective(c: Claims, d: Claims, mac: Mac)
    ensures EncodeToken(c, mac) == EncodeToken(d, mac) <==> c == d
  {
    hide EncodeToken, DecodeToken, DecodeObject;
    RoundTrip(c, mac);
    RoundTrip(d, mac);
  }

  /** Nothing decodes unless its tag is the MAC of the exact text in front of it. */
  lemma DecodedMeansSigned(token: string, mac: Mac)
    requires DecodeObject(token, mac).Object?
    ensures exists payload :: IsAscii(payload) && '.' !in mac(payload) && token == payload + "." + mac(payload)
  {
    var (payload, tag) := SplitLast(token, '.').value;
    assert token == payload + "." + mac(payload);
  }

  /** The text is an object in base64url. */
  predicate Spells(payload: string, items: seq<Member>) {
    && B64.Decode(payload).Some? && FromBytes(B64.Decode(payload).value).Some?
    && ParseObject(FromBytes(B64.Decode(payload).value).value) == Some(items)
  }

  /** The token is a non-empty ASCII text, a dot, and the text's MAC. */
  predicate SignedText(token: string, payload: string, mac: Mac) {
    payload != "" && IsAscii(payload) && token == payload + "." + mac(payload)
  }

  /** What decodes: exactly a signed text that spells an object whose version is 1. */
  lemma DecodesIff(token: string, mac: Mac, items: seq<Member>)
    ensures DecodeObject(token, mac) == Object(items) <==>
      && (exists payload :: SignedText(token, payload, mac) && Spells(payload, items))
      && (Lookup(items, "version") == Some(JInt(1)) || Lookup(items, "version") == Some(JBool(true)))
  {
    VersionIs(items);
    hide DecodeObject, Spells, SignedText, SupportedVersion, Lookup;
    if payload :| SignedText(token, payload, mac) && Spells(payload, items) {
      SignedDecodesIff(token, payload, mac, items);
    }
    if DecodeObject(token, mac) == Object(items) {
      var payload := SignedPart(token, mac);
      SignedDecodesIff(token, payload, mac, items);
    }
  }

  lemma VersionIs(items: seq<Member>)
    ensures SupportedVersion(items) <==>
      Lookup(items, "version") == Some(JInt(1)) || Lookup(items, "version") == Some(JBool(true))
  {
    hide Lookup;
  }

  lemma SignedDecodesIff(token: string, payload: string, mac: Mac, items: seq<Member>)
    requires SignedText(token, payload, mac)
    ensures DecodeObject(token, mac) == Object(items) <==> Spells(payload, items) && SupportedVersion(items)
  {
    hide B64.Decode, FromBytes, ParseObject, SplitLast, SupportedVersion;
    SplitLastUnique(token, '.', payload, mac(payload));
  }

  lemma SignedPart(token: string, mac: Mac) returns (payload: string)
    requires DecodeObject(token, mac).Object?
    ensures SignedText(token, payload, mac)
  {
    hide B64.Decode, FromBytes, ParseObject, SupportedVersion, IsAscii;
    payload := SplitLast(token, '.').value.0;
  }

  /**
    The codec is documented to raise TokenError on any decode failure. It raises something else
    exactly when both parts are there and one of them holds a non-ASCII character.
   */
  lemma EscapesIff(token: string, payload: string, tag: string, mac: Mac)
    requires token == payload + "." + tag && '.' !in tag
    ensures DecodeObject(token, mac) == OtherException
       <==> payload != "" && tag != "" && !(IsAscii(payload) && IsAscii(tag))
  {
    SplitLastUnique(token, '.', payload, tag);
  }

  /** One such token. */
  lemma EscapesExample(mac: Mac)
    ensures DecodeToken("\U{00E9}.a", mac) == Escapes
  {
    var t := "\U{00E9}.a";
    assert t == "\U{00E9}" + "." + "a";
    assert "\U{00E9}"[0] as int == 0xE9;
    EscapesIff(t, "\U{00E9}", "a", mac);
  }
}
