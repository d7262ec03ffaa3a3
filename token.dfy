/** Whether a stored bearer token has expired.  Decoding the payload is
    outside this model: it is a parameter returning what the decoder gave
    back, with the `exp` claim in seconds (absent or not a number as None). */
module Token {
  import opened Wrappers

  datatype Decoded = Payload(exp: Option<real>) | NullPayload | Threw

  type Decoder = string -> Decoded

  /** `isTokenExpired`, with the clock `now` in milliseconds. */
  function IsTokenExpired(token: Option<string>, decode: Decoder, now: int): (expired: bool)
    ensures token == None || token == Some("") ==> expired
    ensures !expired ==>
      token.Some? && decode(token.value).Payload? && decode(token.value).exp.Some?
      && decode(token.value).exp.value != 0.0 && decode(token.value).exp.value * 1000.0 >= now as real
    ensures (token.Some? && token.value != "" && decode(token.value).Payload?
             && decode(token.value).exp.Some? && decode(token.value).exp.value != 0.0
             && decode(token.value).exp.value * 1000.0 >= now as real) ==> !expired
  {
    if token.None? || token.value == "" then true
    else
      match decode(token.value)
      case Threw => true
      case NullPayload => true
      case Payload(exp) =>
        if exp.None? || exp.value == 0.0 then true
        else exp.value * 1000.0 < now as real
  }

  /** Once expired, a token stays expired as the clock moves on. */
  lemma ExpiryIsMonotone(token: Option<string>, decode: Decoder, earlier: int, later: int)
    requires earlier <= later
    ensures IsTokenExpired(token, decode, earlier) ==> IsTokenExpired(token, decode, later)
  {
  }

  /** The `exp` instant itself still counts as valid: only a clock strictly
      past it expires the token.  (Section 4.1.4 of RFC 7519 rejects a token
      on or after that instant, so the two differ for one millisecond.) */
  lemma ExpiryBoundary(token: string, decode: Decoder, now: int)
    requires token != ""
    requires decode(token) == Payload(Some(now as real / 1000.0)) && now != 0
    ensures !IsTokenExpired(Some(token), decode, now)
    ensures IsTokenExpired(Some(token), decode, now + 1)
  {
  }
}
