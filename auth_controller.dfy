/** The token-exchange endpoint: validate the identity token from the request
    body, read its user id, and answer with a session token for that user. */
module AuthController {
  import opened Common
  import opened Auth
  import AuthGuard

  /** The response body `{ token }`. */
  datatype TokenResponse = TokenResponse(token: string)

  /** The message of an `UnauthorizedException` built without arguments. */
  const DefaultUnauthorizedMessage := "Unauthorized"
  const NoUserIdMessage := "User ID could not be extracted."

  /** Validation runs first; a `false` answer or a missing user id stops the
      exchange with `Unauthorized` before anything later is called, and any
      exception of the three calls propagates unchanged. On success the answer
      is the token minted for the user id read from the same body token. */
  function Authenticate(api: AuthApi, privyJwt: string): (t: Traced<TokenResponse>)
    ensures |t.calls| >= 1 && t.calls[0] == ValidateCall(privyJwt)
    ensures var v := api.validate(privyJwt);
            && (v.result.Err? ==> t == Traced(Err(v.result.error), [ValidateCall(privyJwt)], v.metrics))
            && (v.result == Ok(false) ==>
                  t == Traced(Err(Unauthorized(DefaultUnauthorizedMessage)), [ValidateCall(privyJwt)], v.metrics))
    ensures var v, x := api.validate(privyJwt), api.extract(privyJwt);
            v.result == Ok(true) ==>
              && |t.calls| >= 2 && t.calls[1] == ExtractCall(privyJwt)
              && (x.result.Err? ==> t == Traced(Err(x.result.error), t.calls, v.metrics + x.metrics) && |t.calls| == 2)
              && (x.result.Ok? && !Truthy(x.result.value) ==>
                    t.result == Err(Unauthorized(NoUserIdMessage)) && |t.calls| == 2 && t.metrics == v.metrics + x.metrics)
    ensures t.result.Ok? <==>
              && api.validate(privyJwt).result == Ok(true)
              && api.extract(privyJwt).result.Ok?
              && Truthy(api.extract(privyJwt).result.value)
              && api.issue(api.extract(privyJwt).result.value.value).result.Ok?
    ensures var v, x := api.validate(privyJwt), api.extract(privyJwt);
            v.result == Ok(true) && x.result.Ok? && Truthy(x.result.value) ==>
              var userId := x.result.value.value;
              var i := api.issue(userId);
              && t.calls == [ValidateCall(privyJwt), ExtractCall(privyJwt), IssueCall(userId)]
              && t.metrics == v.metrics + x.metrics + i.metrics
              && (i.result.Ok? ==> t.result == Ok(TokenResponse(i.result.value)))
              && (i.result.Err? ==> t.result == Err(i.result.error))
  {
    var v := api.validate(privyJwt);
    if v.result.Err? then
      Traced(Err(v.result.error), [ValidateCall(privyJwt)], v.metrics)
    else if !v.result.value then
      Traced(Err(Unauthorized(DefaultUnauthorizedMessage)), [ValidateCall(privyJwt)], v.metrics)
    else
      var x := api.extract(privyJwt);
      var calls := [ValidateCall(privyJwt), ExtractCall(privyJwt)];
      if x.result.Err? then
        Traced(Err(x.result.error), calls, v.metrics + x.metrics)
      else if !Truthy(x.result.value) then
        Traced(Err(Unauthorized(NoUserIdMessage)), calls, v.metrics + x.metrics)
      else
        var userId := x.result.value.value;
        var i := api.issue(userId);
        var all := calls + [IssueCall(userId)];
        if i.result.Err? then
          Traced(Err(i.result.error), all, v.metrics + x.metrics + i.metrics)
        else
          Traced(Ok(TokenResponse(i.result.value)), all, v.metrics + x.metrics + i.metrics)
  }

  /** With the real service the exchange succeeds exactly when the identity
      token is accepted, a secret is configured and the signer succeeds, and it
      answers with the token signed for the token's `userId`. The controller's
      own two `Unauthorized` answers are unreachable: validation never returns
      `false`, and a token that validated has a truthy user id, so every
      failure before issuance is the exception validation threw. */
  lemma ExchangeWithService(decode: Decoder, now: int, config: AuthConfig, sign: Signer, privyJwt: string)
    ensures var t, d := Authenticate(Service(decode, now, config, sign), privyJwt), decode(privyJwt);
            t.result.Ok? <==>
              Accepts(d, now) && Truthy(config.secretKey) &&
              sign(SessionClaims(d.claims.userId.value), config.secretKey.value, ExpiresIn(config)).Token?
    ensures var t, d := Authenticate(Service(decode, now, config, sign), privyJwt), decode(privyJwt);
            t.result.Ok? ==>
              t.result.value == TokenResponse(sign(SessionClaims(d.claims.userId.value), config.secretKey.value, ExpiresIn(config)).token)
    ensures var t := Authenticate(Service(decode, now, config, sign), privyJwt);
            !Accepts(decode(privyJwt), now) ==>
              t.result.Err? && t.result.error.Unauthorized? && t.calls == [ValidateCall(privyJwt)]
    ensures var t := Authenticate(Service(decode, now, config, sign), privyJwt);
            t.result.Err? && |t.calls| <= 2 ==>
              t.calls == [ValidateCall(privyJwt)] && Err(t.result.error) == ValidatePrivyToken(decode, privyJwt, now).result
  {
  }

  /** The session token the exchange returns passes the route guard for the
      same user, as long as the decoder reads back the `userId` the signer puts
      in every token it issues, the token is a single non-empty word and it has
      not expired at the later time of the request. */
  lemma SessionTokenPassesGuard(decode: Decoder, now: int, config: AuthConfig, sign: Signer, privyJwt: string, later: int)
    requires Authenticate(Service(decode, now, config, sign), privyJwt).result.Ok?
    requires forall c, secret, e :: sign(c, secret, e).Token? ==>
               decode(sign(c, secret, e).token).Payload? && decode(sign(c, secret, e).token).claims.userId == Some(c.userId)
    requires var session := Authenticate(Service(decode, now, config, sign), privyJwt).result.value.token;
             && session != "" && ' ' !in session
             && !Expired(decode(session).claims, later)
    ensures var session := Authenticate(Service(decode, now, config, sign), privyJwt).result.value.token;
            AuthGuard.Guard(Service(decode, later, config, sign), Some("Bearer " + session)).result
              == Ok(decode(privyJwt).claims.userId.value)
  {
    ExchangeWithService(decode, now, config, sign, privyJwt);
    var session := Authenticate(Service(decode, now, config, sign), privyJwt).result.value.token;
    AuthGuard.BearerHeader(session);
    AuthGuard.GuardWithService(decode, later, config, sign, Some("Bearer " + session));
  }
}
