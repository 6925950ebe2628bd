/** Issuing access and refresh tokens and resolving the user a token
    names. Durations and instants are whole seconds; `now` stands for the
    clock reading at the call. */
module AuthTokens {
  import opened Common
  import opened Crypto
  import opened Users

  /** The lifetime used when none, or a zero one, is given: 15 minutes. */
  const DefaultLifetime := 15 * 60

  const SecondsPerMinute := 60
  const SecondsPerDay := 24 * 60 * 60

  const InvalidCredentials := HttpError(401, "Invalid authentication credentials")
  const TokenExpired := HttpError(401, "Token has expired")
  const UserNotFound := HttpError(401, "User not found")
  const TokenRequired := HttpError(401, "Authorization token required")

  /** The claims of an access token for user `id`. */
  function AccessClaims(id: string): Claims {
    map["sub" := Text(id)]
  }

  /** The claims of a refresh token for user `id`. */
  function RefreshClaims(id: string): Claims {
    map["sub" := Text(id), "type" := Text("refresh")]
  }

  /** `create_token(data, expires_delta)`: a signed copy of the claims with
      `exp` set to now plus the lifetime; an absent or zero lifetime means
      15 minutes. The caller's claims are a value and stay as they were. */
  function CreateToken(data: Claims, expiresDelta: Option<int>, now: int): (t: Token)
    ensures t.Signed?
    ensures t.claims.Keys == data.Keys + {"exp"}
    ensures forall k | k in data && k != "exp" :: t.claims[k] == data[k]
    ensures expiresDelta.Some? && expiresDelta.value != 0 ==> t.claims["exp"] == Instant(now + expiresDelta.value)
    ensures expiresDelta.None? || expiresDelta.value == 0 ==> t.claims["exp"] == Instant(now + DefaultLifetime)
  {
    var lifetime := if expiresDelta.Some? && expiresDelta.value != 0 then expiresDelta.value else DefaultLifetime;
    Encode(data["exp" := Instant(now + lifetime)])
  }

  /** A zero lifetime is falsy and counts as no lifetime. */
  lemma ZeroLifetimeIsDefault(data: Claims, now: int)
    ensures CreateToken(data, Some(0), now) == CreateToken(data, None, now)
    ensures CreateToken(data, Some(DefaultLifetime), now) == CreateToken(data, None, now)
  {
  }

  /** `get_current_user(token, db)`: an expired token, an invalid one, one
      without a subject, and a subject that names no user are each refused
      with a 401; otherwise the subject's user. A subject that is not text
      names no user. */
  function GetCurrentUser(token: Token, now: int, users: seq<User>): (r: Result<User, HttpError>)
    ensures Decode(token, now).ExpiredSignature? <==> r == Err(TokenExpired)
    ensures Decode(token, now).InvalidToken? ==> r == Err(InvalidCredentials)
    ensures Decode(token, now).Payload? && "sub" !in Decode(token, now).claims ==> r == Err(InvalidCredentials)
    ensures r.Ok? <==> Decode(token, now).Payload? && "sub" in Decode(token, now).claims
                       && Decode(token, now).claims["sub"].Text?
                       && HasId(users, Decode(token, now).claims["sub"].text)
    ensures r == Err(UserNotFound) <==>
              Decode(token, now).Payload? && "sub" in Decode(token, now).claims
              && !(Decode(token, now).claims["sub"].Text? && HasId(users, Decode(token, now).claims["sub"].text))
    ensures r.Ok? ==> r.value in users && r.value.id == Decode(token, now).claims["sub"].text
    ensures r.Err? ==> r.error.status == 401
  {
    match Decode(token, now)
    case ExpiredSignature => Err(TokenExpired)
    case InvalidToken => Err(InvalidCredentials)
    case Payload(claims) =>
      if "sub" !in claims then Err(InvalidCredentials)
      else
        var user := if claims["sub"].Text? then FindById(users, claims["sub"].text) else None;
        if user.Some? then Ok(user.value) else Err(UserNotFound)
  }

  /** A token issued for a stored user, carrying whatever other claims,
      resolves to that user until it expires and is refused as expired
      from then on. */
  lemma IssuedTokenResolves(users: seq<User>, i: int, data: Claims, expiresDelta: Option<int>, now: int, later: int)
    requires WellFormed(users) && 0 <= i < |users|
    requires "sub" in data && data["sub"] == Text(users[i].id)
    ensures var t := CreateToken(data, expiresDelta, now);
            var exp := t.claims["exp"].seconds;
            && (later < exp ==> GetCurrentUser(t, later, users) == Ok(users[i]))
            && (exp <= later ==> GetCurrentUser(t, later, users) == Err(TokenExpired))
  {
    LookupsFindTheRow(users, i);
  }

  /** The token type is not checked here: a refresh token, valid for days,
      is taken as an access token. */
  lemma RefreshTokenResolvesToo(users: seq<User>, i: int, days: int, now: int)
    requires WellFormed(users) && 0 <= i < |users| && days > 0
    ensures GetCurrentUser(CreateToken(RefreshClaims(users[i].id), Some(days * SecondsPerDay), now),
                           now + days * SecondsPerDay - 1, users) == Ok(users[i])
  {
    IssuedTokenResolves(users, i, RefreshClaims(users[i].id), Some(days * SecondsPerDay), now,
                        now + days * SecondsPerDay - 1);
  }

  /** `if not token`: the token query parameter is absent or empty. */
  predicate TokenMissing(token: Option<Token>) {
    token.None? || token.value == Unsigned("")
  }
}
