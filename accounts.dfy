/** The authentication and profile endpoints over the users table:
    register, login, refresh, logout, read the profile and change the
    password. A database failure at commit is an input (`fault`, the
    exception's text), as are the fresh user id, the bcrypt salt and the
    clock. */
module Accounts {
  import opened Common
  import opened Crypto
  import opened AuthSchema
  import opened Users
  import opened AuthTokens

  /** The token settings, as the handlers read them from the environment:
      ACCESS_TOKEN_EXPIRE_MINUTES and ACCESS_TOKEN_EXPIRE_DAYS converted to
      integers (30 when unset), and the raw text of
      ACCESS_TOKEN_EXPIRE_MINUTES, which the refresh handler uses as is. */
  datatype Config = Config(accessMinutes: int, accessDays: int, accessMinutesText: Option<string>)

  const EmailTaken := HttpError(400, "Email already registered")
  const BadLogin := HttpError(401, "Invalid email or password")
  const RefreshExpired := HttpError(401, "Refresh token has expired")
  const RefreshInvalid := HttpError(401, "Invalid refresh token")
  const WrongTokenType := HttpError(401, "Invalid token type")
  const WrongPassword := HttpError(401, "Current password is incorrect")

  /** The row a registration stores: the request's name and e-mail, the
      hash of its password, and the customer role whatever was asked. */
  function NewUser(id: string, req: RegisterRequest, salt: nat): (u: User)
    ensures u.id == id && u.fullname == req.fullname && u.email == req.email
    ensures u.role == Customer
    ensures VerifyPassword(req.password, u.passwordHash)
    ensures forall p :: VerifyPassword(p, u.passwordHash) <==> BcryptKey(p) == BcryptKey(req.password)
  {
    User(id, req.fullname, req.email, HashPassword(req.password, salt), Customer)
  }

  /** The access token issued at login or registration. */
  function AccessToken(id: string, cfg: Config, now: int): Token {
    CreateToken(AccessClaims(id), Some(cfg.accessMinutes * SecondsPerMinute), now)
  }

  /** The refresh token issued with it, valid for `days` days. */
  function RefreshToken(id: string, days: int, now: int): Token {
    CreateToken(RefreshClaims(id), Some(days * SecondsPerDay), now)
  }

  /** The message of the `TypeError` that `timedelta(minutes=...)` raises
      on a string or on `None`. */
  function TimedeltaTypeError(text: Option<string>): string {
    "unsupported type for timedelta minutes component: " + if text.Some? then "str" else "NoneType"
  }

  /** How the refresh endpoint fails. An expired or invalid token, a token
      whose `type` is not "refresh" and an unknown subject are refused with
      a 401; a well-typed token of a stored user reaches the construction
      of the new access token, which passes the raw setting text to
      `timedelta` and so ends in a 500. */
  function RefreshError(token: Token, now: int, users: seq<User>, cfg: Config): (e: HttpError)
    ensures Decode(token, now).ExpiredSignature? <==> e == RefreshExpired
    ensures Decode(token, now).InvalidToken? <==> e == RefreshInvalid
    ensures e == WrongTokenType <==>
              (Decode(token, now).Payload?
               && !("type" in Decode(token, now).claims && Decode(token, now).claims["type"] == Text("refresh")))
    ensures e.status == 500 <==>
              Decode(token, now).Payload? && "type" in Decode(token, now).claims
              && Decode(token, now).claims["type"] == Text("refresh")
              && "sub" in Decode(token, now).claims && Decode(token, now).claims["sub"].Text?
              && HasId(users, Decode(token, now).claims["sub"].text)
    ensures e == UserNotFound <==>
              Decode(token, now).Payload? && "type" in Decode(token, now).claims
              && Decode(token, now).claims["type"] == Text("refresh")
              && !("sub" in Decode(token, now).claims && Decode(token, now).claims["sub"].Text?
                   && HasId(users, Decode(token, now).claims["sub"].text))
    ensures e.status == 500 ==> e.detail == "Token refresh failed: " + TimedeltaTypeError(cfg.accessMinutesText)
    ensures e.status == 401 || e.status == 500
  {
    match Decode(token, now)
    case ExpiredSignature => RefreshExpired
    case InvalidToken => RefreshInvalid
    case Payload(claims) =>
      if !("type" in claims && claims["type"] == Text("refresh")) then WrongTokenType
      else if "sub" in claims && claims["sub"].Text? && FindById(users, claims["sub"].text).Some? then
        HttpError(500, "Token refresh failed: " + TimedeltaTypeError(cfg.accessMinutesText))
      else UserNotFound
  }

  /** An unexpired access token is refused by the refresh endpoint for its
      type, and an unexpired refresh token of a stored user still ends in
      the 500. */
  lemma RefreshErrorOnIssuedTokens(users: seq<User>, i: int, cfg: Config, days: int, now: int, later: int)
    requires WellFormed(users) && 0 <= i < |users|
    requires cfg.accessMinutes > 0 && later < now + cfg.accessMinutes * SecondsPerMinute
    requires days > 0 && later < now + days * SecondsPerDay
    ensures RefreshError(AccessToken(users[i].id, cfg, now), later, users, cfg) == WrongTokenType
    ensures RefreshError(RefreshToken(users[i].id, days, now), later, users, cfg).status == 500
  {
    LookupsFindTheRow(users, i);
    var t := RefreshToken(users[i].id, days, now);
    assert t.claims["sub"] == Text(users[i].id) && t.claims["type"] == Text("refresh");
  }

  /** A user who has just registered can log in with the same e-mail and
      password, and with exactly the passwords whose first 72 encoded bytes
      agree with it: for passwords bcrypt reads whole, with no other. */
  lemma RegisterThenLogin(users: seq<User>, id: string, req: RegisterRequest, salt: nat, password: string)
    requires WellFormed(users) && !HasEmail(users, req.email) && !HasId(users, id)
    ensures WellFormed(users + [NewUser(id, req, salt)])
    ensures Authenticate(users + [NewUser(id, req, salt)], req.email, password).Some?
            <==> BcryptKey(password) == BcryptKey(req.password)
    ensures FitsBcrypt(password) && FitsBcrypt(req.password) ==>
              (Authenticate(users + [NewUser(id, req, salt)], req.email, password).Some? <==> password == req.password)
    ensures password == req.password ==>
              Authenticate(users + [NewUser(id, req, salt)], req.email, password) == Some(NewUser(id, req, salt))
  {
    AppendKeepsWellFormed(users, NewUser(id, req, salt));
    HashVerifies(req.password, password, salt);
  }

  /** After a password change the new password logs the user in, and a
      password that differs from it within bcrypt's 72 bytes (in
      particular a different old one that bcrypt reads whole) no longer
      does. */
  lemma ChangePasswordThenLogin(users: seq<User>, i: int, replacement: string, salt: nat, password: string)
    requires WellFormed(users) && 0 <= i < |users|
    ensures var changed := WithPasswordHash(users, users[i].id, HashPassword(replacement, salt));
            && WellFormed(changed)
            && Authenticate(changed, users[i].email, replacement) == Some(users[i].(passwordHash := HashPassword(replacement, salt)))
            && (BcryptKey(password) != BcryptKey(replacement) ==> Authenticate(changed, users[i].email, password).None?)
            && (FitsBcrypt(password) && FitsBcrypt(replacement) && password != replacement ==>
                  Authenticate(changed, users[i].email, password).None?)
  {
    HashVerifies(replacement, password, salt);
    var h := HashPassword(replacement, salt);
    WithPasswordHashKeepsKeys(users, users[i].id, h, users[i].email);
    LookupsFindTheRow(users, i);
    WithPasswordHashLookup(users, users[i].id, h, users[i].email);
  }

  /** A password change leaves every other account's login as it was. */
  lemma ChangePasswordKeepsOtherLogins(users: seq<User>, i: int, replacement: string, salt: nat,
                                       email: string, password: string)
    requires WellFormed(users) && 0 <= i < |users| && email != users[i].email
    ensures Authenticate(WithPasswordHash(users, users[i].id, HashPassword(replacement, salt)), email, password)
            == Authenticate(users, email, password)
  {
    var id := users[i].id;
    forall k | 0 <= k < |users| && users[k].id == id ensures users[k].email != email {
      assert k == i;
    }
    WithPasswordHashOtherEmail(users, id, HashPassword(replacement, salt), email);
  }

  class AccountService {
    var users: seq<User>

    predicate Valid()
      reads this
    {
      WellFormed(users)
    }

    constructor()
      ensures users == [] && Valid()
    {
      users := [];
    }

    /** `POST /register`. */
    method Register(req: RegisterRequest, freshId: string, salt: nat, now: int, cfg: Config, fault: Option<string>)
      returns (r: Result<AuthResponse, HttpError>)
      requires Valid() && !HasId(users, freshId)
      modifies this
      ensures Valid()
      ensures HasEmail(old(users), req.email) ==> r == Err(EmailTaken) && users == old(users)
      ensures !HasEmail(old(users), req.email) && fault.Some? ==>
                r == Err(HttpError(500, "Registration failed: " + fault.value)) && users == old(users)
      ensures !HasEmail(old(users), req.email) && fault.None? ==>
                && users == old(users) + [NewUser(freshId, req, salt)]
                && r == Ok(MakeAuthResponse("User registered successfully", ToResponse(NewUser(freshId, req, salt)),
                             AccessToken(freshId, cfg, now), RefreshToken(freshId, cfg.accessMinutes, now), None))
    {
      if FindByEmail(users, req.email).Some? {
        return Err(EmailTaken);
      }
      if fault.Some? {
        return Err(HttpError(500, "Registration failed: " + fault.value));
      }
      var user := NewUser(freshId, req, salt);
      AppendKeepsWellFormed(users, user);
      users := users + [user];
      var access := AccessToken(user.id, cfg, now);
      var refresh := RefreshToken(user.id, cfg.accessMinutes, now);
      r := Ok(MakeAuthResponse("User registered successfully", ToResponse(user), access, refresh, None));
    }

    /** `POST /login`: one answer for an unknown e-mail and a wrong
        password alike. */
    method Login(req: LoginRequest, now: int, cfg: Config, fault: Option<string>)
      returns (r: Result<AuthResponse, HttpError>)
      ensures Authenticate(users, req.email, req.password).None? ==> r == Err(BadLogin)
      ensures Authenticate(users, req.email, req.password).Some? && fault.Some? ==>
                r == Err(HttpError(500, "Login failed: " + fault.value))
      ensures Authenticate(users, req.email, req.password).Some? && fault.None? ==>
                var u := Authenticate(users, req.email, req.password).value;
                r == Ok(MakeAuthResponse("Login successful", ToResponse(u),
                          AccessToken(u.id, cfg, now), RefreshToken(u.id, cfg.accessDays, now), None))
    {
      var user := FindByEmail(users, req.email);
      if user.None? || !VerifyPassword(req.password, user.value.passwordHash) {
        return Err(BadLogin);
      }
      if fault.Some? {
        return Err(HttpError(500, "Login failed: " + fault.value));
      }
      var u := user.value;
      r := Ok(MakeAuthResponse("Login successful", ToResponse(u),
                AccessToken(u.id, cfg, now), RefreshToken(u.id, cfg.accessDays, now), None));
    }

    /** `POST /refresh`: never issues a token. */
    method Refresh(refreshToken: Token, now: int, cfg: Config) returns (r: Result<TokenResponse, HttpError>)
      ensures r == Err(RefreshError(refreshToken, now, users, cfg))
    {
      var payload := Decode(refreshToken, now);
      if payload.ExpiredSignature? {
        return Err(RefreshExpired);
      }
      if payload.InvalidToken? {
        return Err(RefreshInvalid);
      }
      var claims := payload.claims;
      if !("type" in claims && claims["type"] == Text("refresh")) {
        return Err(WrongTokenType);
      }
      var user := if "sub" in claims && claims["sub"].Text? then FindById(users, claims["sub"].text) else None;
      if user.None? {
        return Err(UserNotFound);
      }
      r := Err(HttpError(500, "Token refresh failed: " + TimedeltaTypeError(cfg.accessMinutesText)));
    }

    /** `POST /logout`. */
    method Logout(token: Option<Token>, now: int) returns (r: Result<string, HttpError>)
      ensures TokenMissing(token) ==> r == Err(TokenRequired)
      ensures !TokenMissing(token) && GetCurrentUser(token.value, now, users).Err? ==>
                r == Err(GetCurrentUser(token.value, now, users).error)
      ensures !TokenMissing(token) && GetCurrentUser(token.value, now, users).Ok? ==>
                r == Ok("User " + GetCurrentUser(token.value, now, users).value.email + " logged out successfully")
    {
      if TokenMissing(token) {
        return Err(TokenRequired);
      }
      var user := GetCurrentUser(token.value, now, users);
      if user.Err? {
        return Err(user.error);
      }
      r := Ok("User " + user.value.email + " logged out successfully");
    }

    /** `GET /profile/me`. */
    method GetProfile(token: Option<Token>, now: int) returns (r: Result<UserResponse, HttpError>)
      ensures TokenMissing(token) ==> r == Err(TokenRequired)
      ensures !TokenMissing(token) && GetCurrentUser(token.value, now, users).Err? ==>
                r == Err(GetCurrentUser(token.value, now, users).error)
      ensures !TokenMissing(token) && GetCurrentUser(token.value, now, users).Ok? ==>
                r == Ok(ToResponse(GetCurrentUser(token.value, now, users).value))
    {
      if TokenMissing(token) {
        return Err(TokenRequired);
      }
      var user := GetCurrentUser(token.value, now, users);
      if user.Err? {
        return Err(user.error);
      }
      r := Ok(ToResponse(user.value));
    }

    /** `POST /profile/change-password`. */
    method ChangePassword(req: ChangePasswordRequest, token: Option<Token>, now: int, salt: nat, fault: Option<string>)
      returns (r: Result<string, HttpError>)
      requires Valid()
      modifies this
      ensures Valid()
      ensures TokenMissing(token) ==> r == Err(TokenRequired) && users == old(users)
      ensures !TokenMissing(token) && GetCurrentUser(token.value, now, old(users)).Err? ==>
                r == Err(GetCurrentUser(token.value, now, old(users)).error) && users == old(users)
      ensures !TokenMissing(token) && GetCurrentUser(token.value, now, old(users)).Ok? ==>
                var u := GetCurrentUser(token.value, now, old(users)).value;
                && (!VerifyPassword(req.currentPassword, u.passwordHash) ==> r == Err(WrongPassword) && users == old(users))
                && (VerifyPassword(req.currentPassword, u.passwordHash) && fault.Some? ==>
                      r == Err(HttpError(500, "Password change failed: " + fault.value)) && users == old(users))
                && (VerifyPassword(req.currentPassword, u.passwordHash) && fault.None? ==>
                      r == Ok("Password changed successfully")
                      && users == WithPasswordHash(old(users), u.id, HashPassword(req.newPassword, salt)))
    {
      if TokenMissing(token) {
        return Err(TokenRequired);
      }
      var user := GetCurrentUser(token.value, now, users);
      if user.Err? {
        return Err(user.error);
      }
      var u := user.value;
      if !VerifyPassword(req.currentPassword, u.passwordHash) {
        return Err(WrongPassword);
      }
      if fault.Some? {
        return Err(HttpError(500, "Password change failed: " + fault.value));
      }
      var h := HashPassword(req.newPassword, salt);
      WithPasswordHashKeepsKeys(users, u.id, h, u.email);
      users := WithPasswordHash(users, u.id, h);
      r := Ok("Password changed successfully");
    }
  }
}
