/** The route guard: it takes the bearer token from the `Authorization` header,
    validates it, reads the user id out of it and attaches the user to the
    request. The decision is the function `Guard`; `CanActivate` applies it to
    a request object. */
module AuthGuard {
  import opened Common
  import opened Auth

  /** The position of the first `c` in `s`. */
  function IndexOf(s: string, c: char): (i: nat)
    requires c in s
    ensures i < |s| && s[i] == c && c !in s[..i]
  {
    if s[0] == c then 0
    else
      var j := IndexOf(s[1..], c);
      assert s[..j + 1] == [s[0]] + s[1..][..j];
      j + 1
  }

  /** JavaScript's `s.split(sep)` for a one-character separator: the pieces
      between consecutive separators, empty pieces included. */
  function Split(s: string, sep: char): (parts: seq<string>)
    ensures |parts| >= 1
    ensures forall k :: 0 <= k < |parts| ==> sep !in parts[k]
    decreases |s|
  {
    if sep !in s then [s]
    else
      var i := IndexOf(s, sep);
      [s[..i]] + Split(s[i + 1..], sep)
  }

  /** JavaScript's `parts.join(sep)`. */
  function Join(parts: seq<string>, sep: char): string
  {
    if parts == [] then ""
    else if |parts| == 1 then parts[0]
    else parts[0] + [sep] + Join(parts[1..], sep)
  }

  /** Joining a piece in front of at least one more puts a separator between them. */
  lemma JoinCons(first: string, rest: seq<string>, sep: char)
    requires |rest| >= 1
    ensures Join([first] + rest, sep) == first + [sep] + Join(rest, sep)
  {
    assert ([first] + rest)[1..] == rest;
  }

  /** Splitting loses nothing: joining the pieces gives the header back. */
  lemma {:induction false} JoinSplit(s: string, sep: char)
    ensures Join(Split(s, sep), sep) == s
    decreases |s|
  {
    if sep in s {
      var i := IndexOf(s, sep);
      JoinSplit(s[i + 1..], sep);
      JoinCons(s[..i], Split(s[i + 1..], sep), sep);
      assert s == s[..i] + [sep] + s[i + 1..];
    }
  }

  /** In `first + [sep] + rest` with no separator in `first`, the first separator is the one after `first`. */
  lemma {:induction false} IndexOfAfter(first: string, sep: char, rest: string)
    requires sep !in first
    ensures sep in first + [sep] + rest
    ensures IndexOf(first + [sep] + rest, sep) == |first|
  {
    var joined := first + [sep] + rest;
    assert joined[|first|] == sep;
    if first != [] {
      assert joined[1..] == first[1..] + [sep] + rest;
      IndexOfAfter(first[1..], sep, rest);
    }
  }

  /** Joining pieces free of the separator and splitting again gives the pieces back. */
  lemma {:induction false} SplitJoin(parts: seq<string>, sep: char)
    requires |parts| >= 1
    requires forall k :: 0 <= k < |parts| ==> sep !in parts[k]
    ensures Split(Join(parts, sep), sep) == parts
  {
    if |parts| > 1 {
      var first, rest := parts[0], Join(parts[1..], sep);
      var joined := first + [sep] + rest;
      assert parts == [first] + parts[1..];
      JoinCons(first, parts[1..], sep);
      IndexOfAfter(first, sep, rest);
      assert joined[..|first|] == first;
      assert joined[|first| + 1..] == rest;
      SplitJoin(parts[1..], sep);
    }
  }

  /** `authorization?.split(' ')[1]`: the second space-separated piece of the header, if there is one. */
  function BearerToken(authorization: Option<string>): (token: Option<string>)
    ensures token.Some? ==> authorization.Some? && ' ' in authorization.value
    ensures token.Some? ==> ' ' !in token.value
  {
    match authorization
    case None => None
    case Some(header) =>
      var parts := Split(header, ' ');
      if |parts| < 2 then None else Some(parts[1])
  }

  /** For a header made of space-separated words, the token is the second word. */
  lemma BearerTokenIsSecondWord(words: seq<string>)
    requires |words| >= 2
    requires forall k :: 0 <= k < |words| ==> ' ' !in words[k]
    ensures BearerToken(Some(Join(words, ' '))) == Some(words[1])
  {
    SplitJoin(words, ' ');
  }

  /** `Authorization: Bearer <token>` yields `<token>`. */
  lemma BearerHeader(token: string)
    requires ' ' !in token
    ensures BearerToken(Some("Bearer " + token)) == Some(token)
  {
    var words := ["Bearer", token];
    assert Join(words, ' ') == "Bearer " + token by {
      assert Join(words[1..], ' ') == token;
    }
    BearerTokenIsSecondWord(words);
  }

  const NoTokenMessage := "Access denied. No token provided."
  const InvalidTokenMessage := "Access denied. Invalid token."
  const NoUserMessage := "Access denied. No user found."

  /** The guard's decision for a request with the given `Authorization` header:
      the id of the user to attach, or the exception that denies access. Without
      a non-empty bearer token access is denied before the service is called.
      Otherwise validation and then extraction are called on that same token;
      an exception either throws propagates unchanged, a `false` validation or
      a falsy user id is turned into `Forbidden`. */
  function Guard(api: AuthApi, authorization: Option<string>): (g: Traced<string>)
    ensures var token := BearerToken(authorization);
            !Truthy(token) ==> g == Traced(Err(Forbidden(NoTokenMessage)), [], [])
    ensures var token := BearerToken(authorization);
            Truthy(token) ==>
              var v := api.validate(token.value);
              && 1 <= |g.calls| <= 2
              && g.calls[0] == ValidateCall(token.value)
              && (|g.calls| == 2 <==> v.result == Ok(true))
              && (|g.calls| == 2 ==> g.calls[1] == ExtractCall(token.value))
              && (v.result.Err? ==> g.result == Err(v.result.error) && g.metrics == v.metrics)
              && (v.result == Ok(false) ==> g.result == Err(Forbidden(InvalidTokenMessage)) && g.metrics == v.metrics)
    ensures var token := BearerToken(authorization);
            Truthy(token) && api.validate(token.value).result == Ok(true) ==>
              var x := api.extract(token.value);
              && g.metrics == api.validate(token.value).metrics + x.metrics
              && (x.result.Err? ==> g.result == Err(x.result.error))
              && (x.result.Ok? && !Truthy(x.result.value) ==> g.result == Err(Forbidden(NoUserMessage)))
              && (x.result.Ok? && Truthy(x.result.value) ==> g.result == Ok(x.result.value.value))
    ensures g.result.Ok? ==> g.result.value != ""
  {
    var token := BearerToken(authorization);
    if !Truthy(token) then
      Traced(Err(Forbidden(NoTokenMessage)), [], [])
    else
      var jwt := token.value;
      var v := api.validate(jwt);
      if v.result.Err? then
        Traced(Err(v.result.error), [ValidateCall(jwt)], v.metrics)
      else if !v.result.value then
        Traced(Err(Forbidden(InvalidTokenMessage)), [ValidateCall(jwt)], v.metrics)
      else
        var x := api.extract(jwt);
        var calls := [ValidateCall(jwt), ExtractCall(jwt)];
        if x.result.Err? then
          Traced(Err(x.result.error), calls, v.metrics + x.metrics)
        else if !Truthy(x.result.value) then
          Traced(Err(Forbidden(NoUserMessage)), calls, v.metrics + x.metrics)
        else
          Traced(Ok(x.result.value.value), calls, v.metrics + x.metrics)
  }

  /** With the real service the guard admits exactly the requests whose bearer
      token the service accepts, attaches that token's `userId`, and never
      reaches its "Invalid token" or "No user found" denials: validation does
      not return `false`, and a token that validated has a truthy user id. */
  lemma GuardWithService(decode: Decoder, now: int, config: AuthConfig, sign: Signer, authorization: Option<string>)
    ensures var g := Guard(Service(decode, now, config, sign), authorization);
            var token := BearerToken(authorization);
            && (g.result.Ok? <==> Truthy(token) && Accepts(decode(token.value), now))
            && (g.result.Ok? ==> g.result.value == decode(token.value).claims.userId.value)
            && g.result != Err(Forbidden(InvalidTokenMessage))
            && g.result != Err(Forbidden(NoUserMessage))
  {
  }

  /** The user the guard attaches to a request. */
  datatype User = User(id: string)

  /** The parts of an HTTP request the guard touches. */
  class Request {
    const authorization: Option<string>
    var user: Option<User>

    constructor (authorization: Option<string>, user: Option<User>)
      ensures this.authorization == authorization && this.user == user
    {
      this.authorization := authorization;
      this.user := user;
    }
  }

  /** Runs the guard on a request: on success it sets `request.user` to the
      extracted id and returns `true`; on every failure `request.user` is left
      as it was. */
  method CanActivate(api: AuthApi, request: Request) returns (t: Traced<bool>)
    modifies request
    ensures var g := Guard(api, request.authorization);
            && t == Traced(if g.result.Ok? then Ok(true) else Err(g.result.error), g.calls, g.metrics)
            && request.user == if g.result.Ok? then Some(User(g.result.value)) else old(request.user)
  {
    var g := Guard(api, request.authorization);
    if g.result.Err? {
      return Traced(Err(g.result.error), g.calls, g.metrics);
    }
    request.user := Some(User(g.result.value));
    t := Traced(Ok(true), g.calls, g.metrics);
  }
}
