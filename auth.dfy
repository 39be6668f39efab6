/** The authentication service: it checks a third-party identity token, reads
    the user id out of it, and mints the system's own session token.

    Each operation is a straight chain of checks over the decoded claims, the
    current time and the configuration, so each becomes a function that returns
    its outcome together with the metric events it emitted. The token decoder
    and the signer are foreign libraries and come in as parameters; so does the
    current time, in whole epoch seconds. */
module Auth {
  import opened Common

  /** The claims of a decoded identity token; a claim the payload lacks is `None`. */
  datatype Claims = Claims(userId: Option<string>, exp: Option<int>, iat: Option<int>)

  /** What decoding a token yields: the decoder throws with a message, or the
      payload is JSON `null`, or it is an object with claims. A payload that is
      any other JSON value (a number, a string, `false`, an array) has no
      `userId` or `exp` property and behaves as `Payload(Claims(None, None, None))`. */
  datatype Decoded = Malformed(message: string) | NullPayload | Payload(claims: Claims)

  type Decoder = string -> Decoded

  /** The configuration the service reads: the signing secret and the session
      token lifetime, each possibly unset. */
  datatype AuthConfig = AuthConfig(secretKey: Option<string>, expiresIn: Option<string>)

  /** The payload of a session token. */
  datatype SessionClaims = SessionClaims(userId: string)

  /** What signing yields: a token, or the library's error. */
  datatype Signed = Token(token: string) | SignError(message: string)

  /** Signs a payload with a secret and a lifetime such as "1h". */
  type Signer = (SessionClaims, string, string) -> Signed

  const ValidateCount := Increment("auth.validate_privy_token.count")
  const ValidateInvalidToken := Increment("auth.validate_privy_token.invalid_token")
  const ValidateExpiredToken := Increment("auth.validate_privy_token.expired_token")
  const ValidateSuccess := Increment("auth.validate_privy_token.success")
  const ValidateFailure := Increment("auth.validate_privy_token.failure")
  const ExtractionErrors := Increment("extraction_errors")
  const GeneratedTokens := Increment("generated_tokens")

  const MissingUserIdMessage := "Invalid token: User ID is missing"
  const ExpiredMessage := "Token has expired"
  /** What reading a property of `null` throws in the JavaScript runtime. */
  const NullPayloadMessage := "Cannot read properties of null (reading 'userId')"
  const NoSecretMessage := "Secret key is not defined in environment variables"
  const DefaultExpiresIn := "1h"

  /** The decoded payload is falsy or has a falsy `userId`. */
  predicate UserIdMissing(d: Decoded)
    requires !d.Malformed?
  {
    d.NullPayload? || !Truthy(d.claims.userId)
  }

  /** `exp < now` in JavaScript: false when the claim is absent. */
  predicate Expired(c: Claims, now: int)
  {
    c.exp.Some? && c.exp.value < now
  }

  /** The condition under which the service accepts an identity token. */
  predicate Accepts(d: Decoded, now: int)
  {
    d.Payload? && Truthy(d.claims.userId) && !Expired(d.claims, now)
  }

  /** Validates an identity token. It returns `true` exactly when the token
      decodes, carries a truthy `userId` and has not expired (`exp == now` is
      still valid); every rejection, including a decoder error, surfaces as
      `Unauthorized`, because the handler rewraps every error, the method's own
      included. It never returns `false`. */
  function ValidatePrivyToken(decode: Decoder, privyJwt: string, now: int): (v: Logged<bool>)
    ensures v.result.Ok? <==> Accepts(decode(privyJwt), now)
    ensures v.result != Ok(false)
    ensures v.result.Err? ==> v.result.error.Unauthorized?
    ensures |v.metrics| >= 2 && v.metrics[0] == ValidateCount
    ensures v.result.Ok? ==> v.metrics == [ValidateCount, ValidateSuccess]
    ensures decode(privyJwt).Malformed? ==>
              v.metrics == [ValidateCount, ValidateFailure] &&
              v.result == Err(Unauthorized("Invalid token: " + decode(privyJwt).message))
    // the userId check comes before the expiry check
    ensures !decode(privyJwt).Malformed? && UserIdMissing(decode(privyJwt)) ==>
              v.metrics == [ValidateCount, ValidateInvalidToken, ValidateFailure] &&
              v.result == Err(Unauthorized("Invalid token: " + MissingUserIdMessage))
    ensures decode(privyJwt).Payload? && Truthy(decode(privyJwt).claims.userId) && Expired(decode(privyJwt).claims, now) ==>
              v.metrics == [ValidateCount, ValidateExpiredToken, ValidateFailure] &&
              v.result == Err(Unauthorized("Invalid token: " + ExpiredMessage))
  {
    match decode(privyJwt)
    case Malformed(message) =>
      Logged(Err(Unauthorized("Invalid token: " + message)), [ValidateCount, ValidateFailure])
    case NullPayload =>
      Logged(Err(Unauthorized("Invalid token: " + MissingUserIdMessage)),
             [ValidateCount, ValidateInvalidToken, ValidateFailure])
    case Payload(claims) =>
      if !Truthy(claims.userId) then
        Logged(Err(Unauthorized("Invalid token: " + MissingUserIdMessage)),
               [ValidateCount, ValidateInvalidToken, ValidateFailure])
      else if Expired(claims, now) then
        Logged(Err(Unauthorized("Invalid token: " + ExpiredMessage)),
               [ValidateCount, ValidateExpiredToken, ValidateFailure])
      else
        Logged(Ok(true), [ValidateCount, ValidateSuccess])
  }

  /** Reads the user id out of a token without looking at its expiry. A token
      that cannot be read (the decoder throws, or the payload is `null`) is
      fatal; an absent or empty `userId` claim is not, and gives `None`. */
  function ExtractUserIdFromToken(decode: Decoder, privyJwt: string): (x: Logged<Option<string>>)
    ensures x.result.Err? <==> decode(privyJwt).Malformed? || decode(privyJwt).NullPayload?
    ensures x.result.Err? ==> x.result.error.Unauthorized? && x.metrics == [ExtractionErrors]
    ensures x.result.Ok? ==> x.metrics == []
    ensures x.result.Ok? ==> (x.result.value.Some? <==> Truthy(decode(privyJwt).claims.userId))
    ensures x.result.Ok? && x.result.value.Some? ==> x.result.value == decode(privyJwt).claims.userId
  {
    match decode(privyJwt)
    case Malformed(message) =>
      Logged(Err(Unauthorized("Failed to extract user ID from token: " + message)), [ExtractionErrors])
    case NullPayload =>
      Logged(Err(Unauthorized("Failed to extract user ID from token: " + NullPayloadMessage)), [ExtractionErrors])
    case Payload(claims) =>
      Logged(Ok(if Truthy(claims.userId) then claims.userId else None), [])
  }

  /** The session token lifetime: the configured one, or "1h" when that is unset or empty. */
  function ExpiresIn(config: AuthConfig): (e: string)
    ensures e != ""
    ensures Truthy(config.expiresIn) ==> e == config.expiresIn.value
    ensures !Truthy(config.expiresIn) ==> e == "1h"
  {
    if Truthy(config.expiresIn) then config.expiresIn.value else DefaultExpiresIn
  }

  /** Mints a session token for a user. Without a secret it throws a server
      error, signs nothing and emits nothing; otherwise it returns exactly what
      the signer returns for `{userId}`, the secret and the lifetime, and counts
      the token. A signer error propagates as it is. */
  function GenerateMetaversalJwt(config: AuthConfig, sign: Signer, userId: string): (g: Logged<string>)
    ensures !Truthy(config.secretKey) ==> g == Logged(Err(InternalServerError(NoSecretMessage)), [])
    ensures Truthy(config.secretKey) ==>
              var signed := sign(SessionClaims(userId), config.secretKey.value, ExpiresIn(config));
              (signed.Token? ==> g == Logged(Ok(signed.token), [GeneratedTokens])) &&
              (signed.SignError? ==> g == Logged(Err(PlainError(signed.message)), []))
  {
    if !Truthy(config.secretKey) then
      Logged(Err(InternalServerError(NoSecretMessage)), [])
    else
      match sign(SessionClaims(userId), config.secretKey.value, ExpiresIn(config))
      case Token(token) => Logged(Ok(token), [GeneratedTokens])
      case SignError(message) => Logged(Err(PlainError(message)), [])
  }

  /** Without a secret the signer is never consulted: the outcome is the same for any signer. */
  lemma NoSecretIgnoresSigner(config: AuthConfig, sign1: Signer, sign2: Signer, userId: string)
    requires !Truthy(config.secretKey)
    ensures GenerateMetaversalJwt(config, sign1, userId) == GenerateMetaversalJwt(config, sign2, userId)
  {
  }

  /** Extraction never consults `exp`: two decoders that differ only in the expiry claim agree. */
  lemma ExtractIgnoresExpiry(decode1: Decoder, decode2: Decoder, privyJwt: string, exp: Option<int>)
    requires decode1(privyJwt).Payload?
    requires decode2(privyJwt) == Payload(decode1(privyJwt).claims.(exp := exp))
    ensures ExtractUserIdFromToken(decode1, privyJwt) == ExtractUserIdFromToken(decode2, privyJwt)
  {
  }

  /** The service as its callers see it: three calls, each returning its outcome and metric events.
      The guard and the controller are written against this record, so that their behaviour is
      stated for any service the framework injects. */
  datatype AuthApi = AuthApi(
    validate: string -> Logged<bool>,
    extract: string -> Logged<Option<string>>,
    issue: string -> Logged<string>)

  /** A call the guard or the controller makes into the service, with its argument. */
  datatype ServiceCall = ValidateCall(token: string) | ExtractCall(token: string) | IssueCall(userId: string)

  /** The outcome of a guard or controller step, the service calls it made, in
      order, and the metric events those calls emitted. */
  datatype Traced<+T> = Traced(result: Result<T>, calls: seq<ServiceCall>, metrics: seq<Metric>)

  /** The service above, with its decoder, clock, configuration and signer fixed. */
  function Service(decode: Decoder, now: int, config: AuthConfig, sign: Signer): AuthApi
  {
    AuthApi(
      t => ValidatePrivyToken(decode, t, now),
      t => ExtractUserIdFromToken(decode, t),
      u => GenerateMetaversalJwt(config, sign, u))
  }
}
