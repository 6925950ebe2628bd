/** The registration screen: the rules on its four fields, the request
    body it submits, and what the user sees afterwards. */
module RegisterScreen {
  import opened Common
  import opened CustomInput
  import AuthSchema

  datatype FormData = FormData(username: string, email: string, password: string, confirmPassword: string)

  /** The body posted to the register endpoint. */
  datatype Payload = Payload(email: string, password: string, fullname: string)

  const PasswordsMustMatch := "Passwords must match"

  /** The `onSubmit` payload: the e-mail trimmed, the password as typed,
      and the username field sent as the full name. */
  function BuildPayload(form: FormData): (p: Payload)
    ensures p.password == form.password && p.fullname == form.username
    ensures p.email == "" <==> AllWhitespace(form.email)
    ensures Trim(p.email) == p.email
  {
    TrimEmptyIffBlank(form.email);
    TrimIdempotent(form.email);
    Payload(Trim(form.email), form.password, form.username)
  }

  /** The confirm field's own rule, `val === getValues('password') || 'Passwords must match'`,
      closed over the password field's value when it runs. */
  function MatchesPassword(password: string): string -> Verdict {
    v => if v == password then Pass else Fail(PasswordsMustMatch)
  }

  function UsernameRules(): Rules { FieldRules(Some(UsernameField), None) }
  function EmailRules(): Rules { FieldRules(Some(EmailField), None) }
  function PasswordRules(): Rules { FieldRules(Some(PasswordField), None) }
  function ConfirmRules(password: string): Rules { FieldRules(Some(PasswordField), Some(MatchesPassword(password))) }

  /** The form can be submitted only when every field's rules accept it. */
  predicate FormAccepted(form: FormData) {
    && Accepts(UsernameRules(), form.username)
    && Accepts(EmailRules(), form.email)
    && Accepts(PasswordRules(), form.password)
    && Accepts(ConfirmRules(form.password), form.confirmPassword)
  }

  /** The match rule passes exactly on the current password, and the
      confirm field keeps the password preset besides. */
  lemma ConfirmRuleMeaning(password: string, v: string)
    ensures MatchesPassword(password)(v) == Pass <==> v == password
    ensures MatchesPassword(password)(v) != Pass ==> MatchesPassword(password)(v) == Fail(PasswordsMustMatch)
    ensures Accepts(ConfirmRules(password), v) <==> v == password && |v| >= 8
    ensures ConfirmRules(password).required == PasswordRules().required
    ensures ConfirmRules(password).minLength == PasswordRules().minLength
  {
    MergeKeepsPreset(Some(PasswordField), MatchesPassword(password), v);
  }

  /** The form is accepted exactly when the username has at least 3
      characters, the e-mail matches the pattern, the password has at least
      8 and the confirmation repeats it. */
  lemma FormAcceptedMeaning(form: FormData)
    ensures FormAccepted(form) <==>
      |form.username| >= 3 && IsValidEmail(form.email) && |form.password| >= 8
      && form.confirmPassword == form.password
  {
    ConfirmRuleMeaning(form.password, form.confirmPassword);
    PresetMeaning(form.username);
    PresetMeaning(form.email);
    PresetMeaning(form.password);
  }

  /** For an accepted form, trimming changes nothing: the payload carries
      the typed e-mail, the typed password and the username, and it meets
      the server's lower length bounds. */
  lemma AcceptedPayload(form: FormData)
    requires FormAccepted(form)
    ensures BuildPayload(form) == Payload(form.email, form.password, form.username)
    ensures |BuildPayload(form).fullname| >= 2 && |BuildPayload(form).password| >= 8
  {
    FormAcceptedMeaning(form);
    TrimNoOuterBlank(form.email);
  }

  /** The screen sets no upper bounds, while the server allows at most 100
      characters of full name: a form the screen accepts can still be
      refused by the server's request model. */
  lemma LongUsernameAcceptedThenRefused(form: FormData)
    requires |form.username| > 100 && IsValidEmail(form.email) && |form.password| >= 8
    requires form.confirmPassword == form.password
    ensures FormAccepted(form)
    ensures AuthSchema.ParseRegister(BuildPayload(form).fullname, BuildPayload(form).email,
                                     BuildPayload(form).password, AuthSchema.RoleOmitted).Err?
  {
    FormAcceptedMeaning(form);
  }

  // ---------------------------------------------------------------------
  // After submitting

  /** How the register call ended: success, or an error whose `message`
      may be missing. */
  datatype SubmitResult = Registered | Failed(message: Option<string>)

  datatype ScreenEffect = ReplaceRoute(path: string) | ShowAlert(message: string)

  /** Success replaces the screen by the login screen; a failure shows the
      error's message, or 'Registration failed' when it is missing or empty. */
  function AfterSubmit(r: SubmitResult): (e: ScreenEffect)
    ensures r.Registered? <==> e == ReplaceRoute("/login")
    ensures r.Failed? && r.message.Some? && r.message.value != "" ==> e == ShowAlert(r.message.value)
    ensures r.Failed? && (r.message.None? || r.message.value == "") ==> e == ShowAlert("Registration failed")
  {
    match r
    case Registered => ReplaceRoute("/login")
    case Failed(m) => if m.Some? && m.value != "" then ShowAlert(m.value) else ShowAlert("Registration failed")
  }
}
