/** The validation presets of the shared text-input component and the way a
    caller's own `validate` rule is merged with them. A rule set holds at
    most one rule of each kind; which failing rule's message the form
    library displays first is the library's business, so a field here is
    judged by whether every rule accepts it. */
module CustomInput {
  import opened Common

  datatype ValidationType = EmailField | PasswordField | UsernameField | RequiredField

  /** What a caller's `validate` function returns: `true` or a message. */
  datatype Verdict = Pass | Fail(message: string)

  datatype MinLength = MinLength(value: nat, message: string)

  /** The rules object handed to the form controller. The only pattern any
      preset uses is the e-mail pattern, so `emailPattern` carries just its
      message. */
  datatype Rules = Rules(
    required: Option<string>,
    emailPattern: Option<string>,
    minLength: Option<MinLength>,
    validate: Option<string -> Verdict>)

  const NoRules := Rules(None, None, None, None)

  // ---------------------------------------------------------------------
  // The e-mail pattern /^[^\s@]+@[^\s@]+\.[^\s@]+$/

  /** One `[^\s@]+` run. */
  ghost predicate Run(s: string) {
    |s| > 0 && forall i :: 0 <= i < |s| ==> !IsJsWhitespace(s[i]) && s[i] != '@'
  }

  /** The regular expression read literally: three runs, separated by
      '@' and by '.', filling the whole string. */
  ghost predicate MatchesEmailRegex(s: string) {
    exists at, dot :: 0 < at < dot - 1 && dot < |s| - 1 && s[at] == '@' && s[dot] == '.'
      && Run(s[..at]) && Run(s[at + 1..dot]) && Run(s[dot + 1..])
  }

  /** The same test, stated as the checks it amounts to: no blank anywhere,
      a single '@' that is not the first character, and a '.' after it that
      is neither the first nor the last character of the domain part. */
  predicate IsValidEmail(s: string) {
    && (forall i :: 0 <= i < |s| ==> !IsJsWhitespace(s[i]))
    && exists at :: 0 < at < |s| && s[at] == '@'
         && (forall m :: 0 <= m < |s| && m != at ==> s[m] != '@')
         && exists dot :: at + 1 < dot < |s| - 1 && s[dot] == '.'
  }

  lemma EmailCheckMatchesRegex(s: string)
    ensures IsValidEmail(s) <==> MatchesEmailRegex(s)
  {
    if IsValidEmail(s) {
      var at :| 0 < at < |s| && s[at] == '@'
         && (forall m :: 0 <= m < |s| && m != at ==> s[m] != '@')
         && exists dot :: at + 1 < dot < |s| - 1 && s[dot] == '.';
      var dot :| at + 1 < dot < |s| - 1 && s[dot] == '.';
      var local, host, top := s[..at], s[at + 1..dot], s[dot + 1..];
      assert forall i :: 0 <= i < |local| ==> local[i] == s[i];
      assert forall i :: 0 <= i < |host| ==> host[i] == s[at + 1 + i];
      assert forall i :: 0 <= i < |top| ==> top[i] == s[dot + 1 + i];
      assert Run(local) && Run(host) && Run(top);
    }
    if MatchesEmailRegex(s) {
      var at, dot :| 0 < at < dot - 1 && dot < |s| - 1 && s[at] == '@' && s[dot] == '.'
        && Run(s[..at]) && Run(s[at + 1..dot]) && Run(s[dot + 1..]);
      forall m | 0 <= m < |s| && m != at && m != dot
        ensures !IsJsWhitespace(s[m]) && s[m] != '@'
      {
        if m < at {
          assert s[m] == s[..at][m];
        } else if m < dot {
          assert s[m] == s[at + 1..dot][m - at - 1];
        } else {
          assert s[m] == s[dot + 1..][m - dot - 1];
        }
      }
    }
  }

  // ---------------------------------------------------------------------
  // Presets and merging

  const EmailRequired := "Email is required"
  const EmailInvalid := "Invalid email address"
  const PasswordRequired := "Password is required"
  const PasswordTooShort := "Password must be at least 8 characters"
  const UsernameRequired := "Username is required"
  const UsernameTooShort := "Username must be at least 3 characters"
  const FieldRequired := "This field is required"

  /** `getDefaultRules`: the preset for each validation type, and no rules
      at all when none is given. */
  function DefaultRules(t: Option<ValidationType>): (r: Rules)
    ensures r.validate.None?
    ensures t.None? ==> r.required.None? && r.emailPattern.None? && r.minLength.None?
    ensures t.Some? ==> r.required.Some?
    ensures r.emailPattern.Some? <==> t == Some(EmailField)
    ensures r.minLength.Some? <==> t == Some(PasswordField) || t == Some(UsernameField)
    ensures t == Some(EmailField) ==>
              r.required == Some("Email is required") && r.emailPattern == Some("Invalid email address")
    ensures t == Some(PasswordField) ==>
              r.required == Some("Password is required")
              && r.minLength == Some(MinLength(8, "Password must be at least 8 characters"))
    ensures t == Some(UsernameField) ==>
              r.required == Some("Username is required")
              && r.minLength == Some(MinLength(3, "Username must be at least 3 characters"))
    ensures t == Some(RequiredField) ==> r.required == Some("This field is required")
  {
    match t
    case None => NoRules
    case Some(EmailField) => Rules(Some(EmailRequired), Some(EmailInvalid), None, None)
    case Some(PasswordField) => Rules(Some(PasswordRequired), None, Some(MinLength(8, PasswordTooShort)), None)
    case Some(UsernameField) => Rules(Some(UsernameRequired), None, Some(MinLength(3, UsernameTooShort)), None)
    case Some(RequiredField) => Rules(Some(FieldRequired), None, None, None)
  }

  /** `{ ...getDefaultRules(validationType), ...(validate ? { validate } : {}) }`. */
  function FieldRules(t: Option<ValidationType>, validate: Option<string -> Verdict>): (r: Rules)
    ensures r.required == DefaultRules(t).required
    ensures r.emailPattern == DefaultRules(t).emailPattern
    ensures r.minLength == DefaultRules(t).minLength
    ensures r.validate == validate
  {
    var preset := DefaultRules(t);
    if validate.Some? then preset.(validate := validate) else preset
  }

  // ---------------------------------------------------------------------
  // Judging a value

  /** Every rule in the set accepts the value: `required` rejects the empty
      string; the pattern rejects a non-empty value the e-mail pattern does
      not match and `minLength` a shorter non-empty value (the form library
      leaves an empty value to `required`); `validate` must pass. */
  predicate Accepts(rules: Rules, v: string) {
    && (rules.required.Some? ==> v != "")
    && (rules.emailPattern.Some? && v != "" ==> IsValidEmail(v))
    && (rules.minLength.Some? && v != "" ==> |v| >= rules.minLength.value.value)
    && (rules.validate.Some? ==> rules.validate.value(v).Pass?)
  }

  /** The messages of the rules that reject the value. */
  function Failures(rules: Rules, v: string): (r: seq<string>)
    ensures r == [] <==> Accepts(rules, v)
  {
    (if rules.required.Some? && v == "" then [rules.required.value] else [])
    + (if rules.emailPattern.Some? && v != "" && !IsValidEmail(v) then [rules.emailPattern.value] else [])
    + (if rules.minLength.Some? && v != "" && |v| < rules.minLength.value.value then [rules.minLength.value.message] else [])
    + (match rules.validate
       case Some(f) => (match f(v) case Fail(m) => [m] case Pass => [])
       case None => [])
  }

  /** A caller's `validate` is added beside the preset and removes none of
      its rules: the field accepts exactly what the preset accepts and the
      caller's rule passes. */
  lemma MergeKeepsPreset(t: Option<ValidationType>, f: string -> Verdict, v: string)
    ensures Accepts(FieldRules(t, Some(f)), v) <==> Accepts(FieldRules(t, None), v) && f(v).Pass?
  {
  }

  /** What each preset accepts, in plain terms. */
  lemma PresetMeaning(v: string)
    ensures Accepts(FieldRules(Some(EmailField), None), v) <==> IsValidEmail(v)
    ensures Accepts(FieldRules(Some(PasswordField), None), v) <==> |v| >= 8
    ensures Accepts(FieldRules(Some(UsernameField), None), v) <==> |v| >= 3
    ensures Accepts(FieldRules(Some(RequiredField), None), v) <==> v != ""
    ensures Accepts(FieldRules(None, None), v)
  {
  }

  /** The e-mail examples: empty (only the required message), a domain
      without a dot, and a well-formed address. */
  lemma EmailExamples()
    ensures Failures(FieldRules(Some(EmailField), None), "") == [EmailRequired]
    ensures Failures(FieldRules(Some(EmailField), None), "a@b") == [EmailInvalid]
    ensures Failures(FieldRules(Some(EmailField), None), "a@b.com") == []
  {
    var good := "a@b.com";
    assert good[1] == '@' && good[3] == '.';
    assert IsValidEmail(good);
    var bad := "a@b";
    assert !IsValidEmail(bad);
  }
}
