/** The security settings page and the login page: input checks on the PIN
    boxes, then the matching call into the security service. */
module SecurityView {
  import Text
  import Security
  import Settings

  /** Which check a PIN form stopped at, or Accepted when it passed them all.
      Every rejection only shows an alert. */
  datatype PinCheck = BlankPin | TooShort | Mismatch | Accepted

  const MinPinLength: nat := 4

  /** The checks of `SetupPinAsync`, in order: a PIN is entered, its
      `Length` (in UTF-16 code units) is at least four, and the confirmation
      repeats it. */
  function CheckSetup(pin: string, confirm: string): PinCheck {
    if Text.IsBlank(pin) then BlankPin
    else if Text.Utf16Length(pin) < MinPinLength then TooShort
    else if pin != confirm then Mismatch
    else Accepted
  }

  /** The checks of `ChangePinAsync`: both boxes are filled, then the same
      length and match checks. */
  function CheckChange(pin: string, confirm: string): PinCheck {
    if Text.IsBlank(pin) || Text.IsBlank(confirm) then BlankPin
    else if Text.Utf16Length(pin) < MinPinLength then TooShort
    else if pin != confirm then Mismatch
    else Accepted
  }

  /** Both forms accept exactly a non-blank PIN of at least four UTF-16 code
      units that the confirmation repeats; they differ only in which message
      a rejected pair gets. */
  lemma AcceptedPins(pin: string, confirm: string)
    ensures CheckSetup(pin, confirm) == Accepted <==> !Text.IsBlank(pin) && Text.Utf16Length(pin) >= MinPinLength && pin == confirm
    ensures CheckChange(pin, confirm) == Accepted <==> CheckSetup(pin, confirm) == Accepted
  {
  }

  /** The length rule does not ask for digits: a four-letter PIN is
      accepted. */
  lemma LettersAccepted()
    ensures CheckSetup("abcd", "abcd") == Accepted
  {
    assert !Text.IsWhiteSpace("abcd"[0]);
  }

  /** The length rule counts UTF-16 code units: two characters outside the
      Basic Multilingual Plane make a PIN of length four, while three
      characters inside it are too short. */
  lemma SurrogatePairsCountTwice()
    ensures CheckSetup("\U{1F60A}\U{1F60A}", "\U{1F60A}\U{1F60A}") == Accepted
    ensures CheckSetup("123", "123") == TooShort
  {
    assert !Text.IsWhiteSpace("\U{1F60A}\U{1F60A}"[0]);
    assert !Text.IsWhiteSpace("123"[0]);
  }

  class SecurityViewModel {
    const security: Security.SecurityService
    var isSecurityEnabled: bool
    var pinEntry: string
    var confirmPinEntry: string
    var isSettingUp: bool

    constructor (security: Security.SecurityService)
      ensures this.security == security
      ensures !isSecurityEnabled && pinEntry == "" && confirmPinEntry == "" && !isSettingUp
    {
      this.security := security;
      isSecurityEnabled := false;
      pinEntry, confirmPinEntry := "", "";
      isSettingUp := false;
    }

    /** `InitializeAsync`: the switch shows the stored flag. */
    method Initialize()
      modifies this`isSecurityEnabled
      ensures isSecurityEnabled == Security.IsEnabled(security.store.values)
    {
      isSecurityEnabled := security.IsSecurityEnabled();
    }

    /** `SetupPinAsync`: a rejected form changes nothing; an accepted one
        enables protection with the PIN and clears both boxes. */
    method SetupPin() returns (check: PinCheck)
      modifies this`isSecurityEnabled, this`pinEntry, this`confirmPinEntry, security.store
      ensures check == CheckSetup(old(pinEntry), old(confirmPinEntry))
      ensures check != Accepted ==>
                && security.store.values == old(security.store.values)
                && isSecurityEnabled == old(isSecurityEnabled)
                && pinEntry == old(pinEntry) && confirmPinEntry == old(confirmPinEntry)
      ensures check == Accepted ==>
                && security.store.values == Security.Enabled(old(security.store.values), security.hash, old(pinEntry))
                && isSecurityEnabled && pinEntry == "" && confirmPinEntry == ""
    {
      if Text.IsBlank(pinEntry) {
        return BlankPin;
      }
      if Text.Utf16Length(pinEntry) < MinPinLength {
        return TooShort;
      }
      if pinEntry != confirmPinEntry {
        return Mismatch;
      }
      security.EnableSecurity(pinEntry);
      isSecurityEnabled := true;
      pinEntry := "";
      confirmPinEntry := "";
      check := Accepted;
    }

    /** `DisableSecurityAsync`: only a confirmed request disables. */
    method DisableSecurity(confirm: bool)
      modifies this`isSecurityEnabled, security.store
      ensures confirm ==> security.store.values == Security.Disabled(old(security.store.values)) && !isSecurityEnabled
      ensures !confirm ==> security.store.values == old(security.store.values) && isSecurityEnabled == old(isSecurityEnabled)
    {
      if confirm {
        security.DisableSecurity();
        isSecurityEnabled := false;
      }
    }

    /** `ChangePinAsync`: a rejected form changes nothing; an accepted one
        stores the new PIN's digest and clears both boxes. The switch is
        never touched. */
    method ChangePin() returns (check: PinCheck)
      modifies this`pinEntry, this`confirmPinEntry, security.store
      ensures check == CheckChange(old(pinEntry), old(confirmPinEntry))
      ensures check != Accepted ==>
                && security.store.values == old(security.store.values)
                && pinEntry == old(pinEntry) && confirmPinEntry == old(confirmPinEntry)
      ensures check == Accepted ==>
                && security.store.values == Security.PinChanged(old(security.store.values), security.hash, old(pinEntry))
                && pinEntry == "" && confirmPinEntry == ""
    {
      if Text.IsBlank(pinEntry) || Text.IsBlank(confirmPinEntry) {
        return BlankPin;
      }
      if Text.Utf16Length(pinEntry) < MinPinLength {
        return TooShort;
      }
      if pinEntry != confirmPinEntry {
        return Mismatch;
      }
      security.ChangePin(pinEntry);
      pinEntry := "";
      confirmPinEntry := "";
      check := Accepted;
    }
  }

  /** How a login attempt ends. */
  datatype LoginOutcome = NoPinEntered | Granted | Denied

  class LoginViewModel {
    const security: Security.SecurityService
    var pinEntry: string
    var isAuthenticating: bool

    constructor (security: Security.SecurityService)
      ensures this.security == security && pinEntry == "" && !isAuthenticating
    {
      this.security := security;
      pinEntry := "";
      isAuthenticating := false;
    }

    /** `AuthenticateAsync`: a blank PIN is turned away before any
        validation; a PIN that does not validate is cleared; the busy flag
        is down afterwards. The settings are only read. */
    method Authenticate() returns (outcome: LoginOutcome)
      modifies this
      ensures Text.IsBlank(old(pinEntry)) <==> outcome == NoPinEntered
      ensures outcome != NoPinEntered ==> (outcome == Granted <==> Security.Opens(security.store.values, security.hash, old(pinEntry)))
      ensures outcome == Denied ==> pinEntry == ""
      ensures outcome != Denied ==> pinEntry == old(pinEntry)
      ensures outcome == NoPinEntered ==> isAuthenticating == old(isAuthenticating)
      ensures outcome != NoPinEntered ==> !isAuthenticating
    {
      if Text.IsBlank(pinEntry) {
        return NoPinEntered;
      }
      isAuthenticating := true;
      var isValid := security.ValidatePin(pinEntry);
      if isValid {
        outcome := Granted;
      } else {
        pinEntry := "";
        outcome := Denied;
      }
      isAuthenticating := false;
    }
  }
}
