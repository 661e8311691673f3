/** The claims a token carries, and what the rest of bed relies on its codec for. */
module Tokens {
  import opened Basics
  import opened PyText

  /** The claims of a version-1 token. Timestamps count ticks of 10^-20 seconds. */
  datatype Claims = Claims(
    moniker: string,
    issuedAt: int,
    expiresAt: int,
    sessionId: string,
    isSysop: bool,
    instanceId: string,
    websocketId: string,
    loginid: Option<string>
  )

  /** The outcome of decoding a token: claims, a TokenError, or an exception of another kind. */
  datatype Decoding = Decoded(claims: Claims) | Invalid | Escapes

  datatype Codec = Codec(encode: Claims -> string, decode: string -> Decoding)

  /** Minted tokens decode to their claims, and are non-empty text that strip() leaves alone. */
  ghost predicate Faithful(codec: Codec) {
    forall c: Claims ::
      var t := codec.encode(c);
      codec.decode(t) == Decoded(c) && t != "" && Strip(t) == t
  }

  /** Distinct claims give distinct tokens. */
  lemma EncodeInjective(codec: Codec, c: Claims, d: Claims)
    requires Faithful(codec)
    ensures codec.encode(c) == codec.encode(d) <==> c == d
  {
    assert codec.decode(codec.encode(c)) == Decoded(c);
    assert codec.decode(codec.encode(d)) == Decoded(d);
  }
}
