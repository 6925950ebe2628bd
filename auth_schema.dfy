/** The request and response records of the authentication API and the
    field constraints the request records enforce before a handler runs.
    String lengths are counted in characters, as Python counts them. The
    e-mail syntax check of the `email` fields is the validation library's
    and is not modelled: any string is taken as an e-mail address. */
module AuthSchema {
  import opened Common
  import opened Crypto

  datatype UserRole = Customer | Pharmacist | Admin

  /** The wire value of each role. */
  function RoleValue(r: UserRole): string {
    match r
    case Customer => "customer"
    case Pharmacist => "pharmacist"
    case Admin => "admin"
  }

  /** Reading a role from its wire value; anything else is refused. */
  function ParseRole(s: string): (r: Option<UserRole>)
    ensures r.Some? <==> s == "customer" || s == "pharmacist" || s == "admin"
  {
    if s == "customer" then Some(Customer)
    else if s == "pharmacist" then Some(Pharmacist)
    else if s == "admin" then Some(Admin)
    else None
  }

  /** Each role reads back from its wire value, and only the three wire
      values read as roles. */
  lemma RoleRoundTrip(r: UserRole, s: string)
    ensures ParseRole(RoleValue(r)) == Some(r)
    ensures ParseRole(s).Some? ==> RoleValue(ParseRole(s).value) == s
  {
  }

  datatype FieldError =
    | TooShort(field: string, minLength: nat)
    | TooLong(field: string, maxLength: nat)
    | NotARole(field: string)

  /** `Field(..., min_length=lo, max_length=hi)` on a string field. */
  function CheckLength(field: string, s: string, lo: nat, hi: nat): (r: seq<FieldError>)
    ensures r == [] <==> lo <= |s| <= hi
    ensures r == [TooShort(field, lo)] <==> |s| < lo
    ensures r == [TooLong(field, hi)] <==> lo <= |s| && hi < |s|
  {
    if |s| < lo then [TooShort(field, lo)]
    else if |s| > hi then [TooLong(field, hi)]
    else []
  }

  /** The `role` member of a registration body: left out, given as `null`,
      or given as a string. */
  datatype RoleInput = RoleOmitted | RoleNull | RoleText(text: string)

  datatype RegisterRequest = RegisterRequest(fullname: string, email: string, password: string, role: Option<UserRole>)
  datatype LoginRequest = LoginRequest(email: string, password: string)
  datatype ChangePasswordRequest = ChangePasswordRequest(currentPassword: string, newPassword: string)

  function RoleErrors(role: RoleInput): seq<FieldError> {
    if role.RoleText? && ParseRole(role.text).None? then [NotARole("role")] else []
  }

  /** `RegisterRequest`: fullname 2..100 characters, password 8..255, and a
      role that defaults to customer when the member is left out. */
  function ParseRegister(fullname: string, email: string, password: string, role: RoleInput)
    : (r: Result<RegisterRequest, seq<FieldError>>)
    ensures r.Ok? <==> 2 <= |fullname| <= 100 && 8 <= |password| <= 255
                       && (role.RoleText? ==> ParseRole(role.text).Some?)
    ensures r.Ok? ==> r.value.fullname == fullname && r.value.email == email && r.value.password == password
    ensures r.Ok? && role == RoleOmitted ==> r.value.role == Some(Customer)
    ensures r.Ok? && role == RoleNull ==> r.value.role == None
    ensures r.Ok? && role.RoleText? ==> r.value.role.Some? && RoleValue(r.value.role.value) == role.text
  {
    var errors := CheckLength("fullname", fullname, 2, 100) + CheckLength("password", password, 8, 255) + RoleErrors(role);
    if errors != [] then Err(errors)
    else
      var parsedRole := match role
        case RoleOmitted => Some(Customer)
        case RoleNull => None
        case RoleText(t) => ParseRole(t);
      Ok(RegisterRequest(fullname, email, password, parsedRole))
  }

  /** `LoginRequest`: password 8..255 characters. */
  function ParseLogin(email: string, password: string): (r: Result<LoginRequest, seq<FieldError>>)
    ensures r.Ok? <==> 8 <= |password| <= 255
    ensures r.Ok? ==> r.value == LoginRequest(email, password)
  {
    var errors := CheckLength("password", password, 8, 255);
    if errors != [] then Err(errors) else Ok(LoginRequest(email, password))
  }

  /** `ChangePasswordRequest`: both passwords 8..255 characters. */
  function ParseChangePassword(current: string, replacement: string): (r: Result<ChangePasswordRequest, seq<FieldError>>)
    ensures r.Ok? <==> 8 <= |current| <= 255 && 8 <= |replacement| <= 255
    ensures r.Ok? ==> r.value == ChangePasswordRequest(current, replacement)
    ensures r.Err? ==> 1 <= |r.error| <= 2
  {
    var errors := CheckLength("current_password", current, 8, 255) + CheckLength("new_password", replacement, 8, 255);
    if errors != [] then Err(errors) else Ok(ChangePasswordRequest(current, replacement))
  }

  // ---------------------------------------------------------------------
  // Responses

  const Bearer := "bearer"

  datatype UserResponse = UserResponse(id: string, fullname: string, email: string, role: UserRole)

  datatype TokenResponse = TokenResponse(accessToken: Token, refreshToken: Token, tokenType: string, expiresIn: int)

  datatype AuthResponse = AuthResponse(
    message: string, user: UserResponse, accessToken: Token, refreshToken: Token, tokenType: string)

  /** Building a `TokenResponse`; `token_type` is "bearer" unless given. */
  function MakeTokenResponse(access: Token, refresh: Token, expiresIn: int, tokenType: Option<string>)
    : (r: TokenResponse)
    ensures tokenType.None? ==> r.tokenType == Bearer
    ensures tokenType.Some? ==> r.tokenType == tokenType.value
    ensures r.accessToken == access && r.refreshToken == refresh && r.expiresIn == expiresIn
  {
    TokenResponse(access, refresh, tokenType.GetOr(Bearer), expiresIn)
  }

  /** Building an `AuthResponse`; `token_type` is "bearer" unless given. */
  function MakeAuthResponse(message: string, user: UserResponse, access: Token, refresh: Token,
                            tokenType: Option<string>): (r: AuthResponse)
    ensures tokenType.None? ==> r.tokenType == Bearer
    ensures tokenType.Some? ==> r.tokenType == tokenType.value
    ensures r.message == message && r.user == user && r.accessToken == access && r.refreshToken == refresh
  {
    AuthResponse(message, user, access, refresh, tokenType.GetOr(Bearer))
  }
}
