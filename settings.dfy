/** The security settings screen: the two-factor and fingerprint-login
    switches. The device's answers (hardware present, biometrics enrolled,
    authentication passed) and a failing navigation are inputs; the
    dialogs and alerts the screen raises are returned. */
module Settings {
  import opened Common

  /** What the screen puts in front of the user. */
  datatype Notice =
    | NoNotice
    | Message(title: string, message: string)
    | Prompt(title: string, message: string, buttons: seq<string>)

  const Enable2FAPrompt := Prompt("Enable 2FA",
    "Two-factor authentication adds an extra layer of security to your account. Would you like to set it up?",
    ["Cancel", "Set up 2FA"])
  const Disable2FAPrompt := Prompt("Disable 2FA",
    "Are you sure you want to disable two-factor authentication? This will make your account less secure.",
    ["Cancel", "Disable"])
  const TwoFactorFailed := Message("Error", "Failed to set up 2FA")
  const Incompatible := Message("Incompatible Device", "Your device doesn't support biometric authentication")
  const NotEnrolled := Message("No Biometrics Found",
    "Please set up biometric authentication in your device settings first")
  const BiometricFailed := Message("Error", "Failed to set up biometric authentication")

  /** One answer from the device's authentication module: a boolean, or an
      exception. */
  datatype DeviceAnswer = Answer(value: bool) | Throws

  /** The three device calls of a biometric setup, in the order they are made. */
  datatype DeviceReplies = DeviceReplies(hasHardware: DeviceAnswer, isEnrolled: DeviceAnswer, authenticated: DeviceAnswer)

  /** Everything the user can do on the two switches and their dialogs. */
  datatype Event =
    | TwoFactorPressed
    | EnableCancelled
    | EnableConfirmed(navigationFails: bool)
    | DisableCancelled
    | DisableConfirmed
    | TwoFactorToggled(on: bool)
    | BiometricPressed(replies: DeviceReplies)
    | BiometricToggled(on: bool, replies: DeviceReplies)

  datatype Flags = Flags(twoFactor: bool, biometric: bool)

  const InitialFlags := Flags(false, false)

  // ---------------------------------------------------------------------
  // Two-factor authentication

  /** The two-factor flag after an event: every dialog path that touches
      it clears it, and nothing sets it. */
  function TwoFactorAfter(enabled: bool, e: Event): (r: bool)
    ensures r ==> enabled
    ensures e == EnableCancelled || e == DisableConfirmed || e == TwoFactorToggled(false) ==> !r
    ensures e == EnableConfirmed(true) ==> !r
    ensures (|| e == EnableConfirmed(false) || e == DisableCancelled || e == TwoFactorPressed
             || e == TwoFactorToggled(true) || e.BiometricPressed? || e.BiometricToggled?) ==> r == enabled
  {
    match e
    case EnableCancelled => false
    case EnableConfirmed(fails) => if fails then false else enabled
    case DisableConfirmed => false
    case TwoFactorToggled(on) => if on then enabled else false
    case _ => enabled
  }

  // ---------------------------------------------------------------------
  // Fingerprint login

  /** `handleBiometricSetup`: the flag after one run. It is turned on only
      from off, with hardware present, biometrics enrolled and a successful
      authentication; from on, passing the two checks turns it off. */
  function BiometricSetupAfter(enabled: bool, d: DeviceReplies): (r: bool)
    ensures r != enabled ==> d.hasHardware == Answer(true) && d.isEnrolled == Answer(true)
    ensures r && !enabled ==> d.authenticated == Answer(true)
  {
    if d.hasHardware != Answer(true) || d.isEnrolled != Answer(true) then enabled
    else if !enabled then d.authenticated == Answer(true)
    else false
  }

  /** What a setup run shows: an alert when a check fails or a call
      throws, nothing otherwise (a refused authentication is silent). */
  function BiometricSetupNotice(enabled: bool, d: DeviceReplies): (n: Notice)
    ensures n == NoNotice || n == Incompatible || n == NotEnrolled || n == BiometricFailed
    ensures n == Incompatible <==> d.hasHardware == Answer(false)
    ensures n == NotEnrolled <==> d.hasHardware == Answer(true) && d.isEnrolled == Answer(false)
    ensures n == BiometricFailed <==>
              || d.hasHardware == Throws
              || (d.hasHardware == Answer(true) && d.isEnrolled == Throws)
              || (d.hasHardware == Answer(true) && d.isEnrolled == Answer(true) && !enabled && d.authenticated == Throws)
  {
    match d.hasHardware
    case Throws => BiometricFailed
    case Answer(false) => Incompatible
    case Answer(true) =>
      match d.isEnrolled
      case Throws => BiometricFailed
      case Answer(false) => NotEnrolled
      case Answer(true) => if !enabled && d.authenticated == Throws then BiometricFailed else NoNotice
  }

  /** From off, setup turns the flag on exactly when all three device
      answers are yes; from on, it turns it off exactly when both checks
      pass. A raised alert never comes with a change of the flag. */
  lemma BiometricSetupMeaning(enabled: bool, d: DeviceReplies)
    ensures !enabled ==> (BiometricSetupAfter(enabled, d) <==>
              d.hasHardware == Answer(true) && d.isEnrolled == Answer(true) && d.authenticated == Answer(true))
    ensures enabled ==> (!BiometricSetupAfter(enabled, d) <==>
              d.hasHardware == Answer(true) && d.isEnrolled == Answer(true))
    ensures BiometricSetupNotice(enabled, d) != NoNotice ==> BiometricSetupAfter(enabled, d) == enabled
  {
  }

  function BiometricAfter(enabled: bool, e: Event): (r: bool)
    ensures e.BiometricToggled? && !e.on ==> !r
    ensures !e.BiometricPressed? && !e.BiometricToggled? ==> r == enabled
  {
    match e
    case BiometricPressed(d) => BiometricSetupAfter(enabled, d)
    case BiometricToggled(on, d) => if on then BiometricSetupAfter(enabled, d) else false
    case _ => enabled
  }

  function Step(f: Flags, e: Event): Flags {
    Flags(TwoFactorAfter(f.twoFactor, e), BiometricAfter(f.biometric, e))
  }

  function Run(f: Flags, events: seq<Event>): Flags
    decreases |events|
  {
    if events == [] then f else Run(Step(f, events[0]), events[1..])
  }

  /** A successful biometric setup from off: the only way the flag turns on. */
  predicate EnablesBiometric(e: Event) {
    var d := if e.BiometricPressed? || e.BiometricToggled? then e.replies
             else DeviceReplies(Throws, Throws, Throws);
    && (e.BiometricPressed? || (e.BiometricToggled? && e.on))
    && d == DeviceReplies(Answer(true), Answer(true), Answer(true))
  }

  /** Whatever the user does, two-factor authentication is never switched
      on from the initial state. */
  lemma {:induction false} TwoFactorNeverEnabled(f: Flags, events: seq<Event>)
    requires !f.twoFactor
    ensures !Run(f, events).twoFactor
    decreases |events|
  {
    if events != [] {
      TwoFactorNeverEnabled(Step(f, events[0]), events[1..]);
    }
  }

  /** If fingerprint login ends up on, having started off, some event of
      the run was a fully successful setup. */
  lemma {:induction false} BiometricNeedsSuccessfulSetup(f: Flags, events: seq<Event>)
    requires !f.biometric && Run(f, events).biometric
    ensures exists i :: 0 <= i < |events| && EnablesBiometric(events[i])
    decreases |events|
  {
    var e := events[0];
    var g := Step(f, e);
    if g.biometric {
      assert EnablesBiometric(events[0]);
    } else {
      BiometricNeedsSuccessfulSetup(g, events[1..]);
      var i :| 0 <= i < |events[1..]| && EnablesBiometric(events[1..][i]);
      assert events[i + 1] == events[1..][i];
    }
  }

  class SettingsScreen {
    var twoFactorEnabled: bool
    var biometricEnabled: bool

    constructor()
      ensures !twoFactorEnabled && !biometricEnabled
    {
      twoFactorEnabled := false;
      biometricEnabled := false;
    }

    function Current(): Flags
      reads this
    {
      Flags(twoFactorEnabled, biometricEnabled)
    }

    /** `handle2FASetup`: asks to enable when off, to disable when on. */
    method TwoFactorSetup() returns (notice: Notice)
      ensures notice == if twoFactorEnabled then Disable2FAPrompt else Enable2FAPrompt
    {
      notice := if twoFactorEnabled then Disable2FAPrompt else Enable2FAPrompt;
    }

    /** "Cancel" on the enable question. */
    method CancelEnable()
      modifies this
      ensures Current() == Step(old(Current()), EnableCancelled)
    {
      twoFactorEnabled := false;
    }

    /** "Set up 2FA": opens the setup screen; if that throws, an alert is
        raised and the flag cleared. */
    method ConfirmEnable(navigationFails: bool) returns (route: Option<string>, notice: Notice)
      modifies this
      ensures Current() == Step(old(Current()), EnableConfirmed(navigationFails))
      ensures navigationFails ==> route == None && notice == TwoFactorFailed
      ensures !navigationFails ==> route == Some("/setup-2fa") && notice == NoNotice
    {
      if navigationFails {
        route, notice := None, TwoFactorFailed;
        twoFactorEnabled := false;
      } else {
        route, notice := Some("/setup-2fa"), NoNotice;
      }
    }

    /** "Disable" on the disable question. */
    method ConfirmDisable()
      modifies this
      ensures Current() == Step(old(Current()), DisableConfirmed)
    {
      twoFactorEnabled := false;
    }

    /** `handle2FAToggle(value)`. */
    method TwoFactorToggle(on: bool) returns (notice: Notice)
      modifies this
      ensures Current() == Step(old(Current()), TwoFactorToggled(on))
      ensures on ==> notice == if twoFactorEnabled then Disable2FAPrompt else Enable2FAPrompt
      ensures !on ==> notice == NoNotice
    {
      if on {
        notice := TwoFactorSetup();
      } else {
        twoFactorEnabled := false;
        notice := NoNotice;
      }
    }

    /** `handleBiometricSetup`. */
    method BiometricSetup(d: DeviceReplies) returns (notice: Notice)
      modifies this
      ensures Current() == Step(old(Current()), BiometricPressed(d))
      ensures notice == BiometricSetupNotice(old(biometricEnabled), d)
    {
      notice := NoNotice;
      if d.hasHardware.Throws? {
        notice := BiometricFailed;
        return;
      }
      if !d.hasHardware.value {
        notice := Incompatible;
        return;
      }
      if d.isEnrolled.Throws? {
        notice := BiometricFailed;
        return;
      }
      if !d.isEnrolled.value {
        notice := NotEnrolled;
        return;
      }
      if !biometricEnabled {
        match d.authenticated
        case Throws => notice := BiometricFailed;
        case Answer(success) =>
          if success {
            biometricEnabled := true;
          }
      } else {
        biometricEnabled := false;
      }
    }

    /** `handleBiometricToggle(value)`. */
    method BiometricToggle(on: bool, d: DeviceReplies) returns (notice: Notice)
      modifies this
      ensures Current() == Step(old(Current()), BiometricToggled(on, d))
      ensures on ==> notice == BiometricSetupNotice(old(biometricEnabled), d)
      ensures !on ==> notice == NoNotice
    {
      if on {
        notice := BiometricSetup(d);
      } else {
        biometricEnabled := false;
        notice := NoNotice;
      }
    }
  }
}
