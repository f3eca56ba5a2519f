/** PIN protection over the settings store: a flag under "SecurityEnabled"
    and the PIN's digest under "AppPIN". */
module Security {
  import opened Wrappers
  import Settings

  const PinKey: string := "AppPIN"
  /** Declared next to the other keys, but no operation uses it. */
  const PasswordKey: string := "AppPassword"
  const EnabledKey: string := "SecurityEnabled"

  /** The Base64 text of a SHA-256 digest: 32 bytes always print as 44
      characters. */
  type Digest = s: string | |s| == 44 witness "AAAAAAAAAAAAAAAAAAAAAAAAAAAAAAAAAAAAAAAAAAA="

  /** Whether the stored flag reads "True". */
  predicate IsEnabled(settings: map<string, string>) {
    EnabledKey in settings && settings[EnabledKey] == "True"
  }

  /** Whether `pin` opens the journal: a non-empty digest is stored and it
      is the digest of `pin`. */
  predicate Opens(settings: map<string, string>, hash: string -> Digest, pin: string) {
    PinKey in settings && settings[PinKey] != "" && settings[PinKey] == hash(pin)
  }

  /** The settings after enabling protection with `pin`. */
  function Enabled(settings: map<string, string>, hash: string -> Digest, pin: string): map<string, string> {
    settings[PinKey := hash(pin)][EnabledKey := "True"]
  }

  /** The settings after disabling protection. */
  function Disabled(settings: map<string, string>): map<string, string> {
    settings[EnabledKey := "False"]
  }

  /** The settings after changing the PIN to `pin`. */
  function PinChanged(settings: map<string, string>, hash: string -> Digest, pin: string): map<string, string> {
    settings[PinKey := hash(pin)]
  }

  /** With no digest stored no PIN opens the journal, and otherwise a PIN
      opens it exactly when its digest is the stored one. */
  lemma OpensMeansSameDigest(settings: map<string, string>, hash: string -> Digest, pin: string)
    ensures PinKey !in settings ==> !Opens(settings, hash, pin)
    ensures PinKey in settings && settings[PinKey] != "" ==> (Opens(settings, hash, pin) <==> hash(pin) == settings[PinKey])
  {
  }

  /** Enabling with a PIN turns protection on, and afterwards exactly the
      PINs with that PIN's digest open the journal, that PIN included. */
  lemma EnableThenValidate(settings: map<string, string>, hash: string -> Digest, pin: string)
    ensures IsEnabled(Enabled(settings, hash, pin))
    ensures Opens(Enabled(settings, hash, pin), hash, pin)
    ensures forall p :: Opens(Enabled(settings, hash, pin), hash, p) <==> hash(p) == hash(pin)
  {
    var h := hash(pin);
    assert |h| == 44;
    assert h != "";
  }

  /** Disabling turns protection off but keeps the stored digest, so the
      same PINs still validate. */
  lemma DisableKeepsPin(settings: map<string, string>, hash: string -> Digest)
    ensures !IsEnabled(Disabled(settings))
    ensures PinKey in Disabled(settings) <==> PinKey in settings
    ensures PinKey in settings ==> Disabled(settings)[PinKey] == settings[PinKey]
    ensures forall p :: Opens(Disabled(settings), hash, p) <==> Opens(settings, hash, p)
  {
  }

  /** Changing the PIN leaves the flag alone, and afterwards the new PIN
      validates. */
  lemma ChangePinThenValidate(settings: map<string, string>, hash: string -> Digest, pin: string)
    ensures IsEnabled(PinChanged(settings, hash, pin)) == IsEnabled(settings)
    ensures Opens(PinChanged(settings, hash, pin), hash, pin)
  {
    var h := hash(pin);
    assert |h| == 44;
    assert h != "";
  }

  /** None of the operations touches the "AppPassword" key or any other key
      besides the PIN and the flag. */
  lemma OnlyPinAndFlagWritten(settings: map<string, string>, hash: string -> Digest, pin: string, key: string)
    requires key != PinKey && key != EnabledKey
    ensures key in Enabled(settings, hash, pin) <==> key in settings
    ensures key in Disabled(settings) <==> key in settings
    ensures key in PinChanged(settings, hash, pin) <==> key in settings
    ensures key in settings ==>
              && Enabled(settings, hash, pin)[key] == settings[key]
              && Disabled(settings)[key] == settings[key]
              && PinChanged(settings, hash, pin)[key] == settings[key]
  {
  }

  lemma PasswordKeyUntouched(settings: map<string, string>, hash: string -> Digest, pin: string)
    ensures PasswordKey in Enabled(settings, hash, pin) <==> PasswordKey in settings
    ensures PasswordKey in Disabled(settings) <==> PasswordKey in settings
    ensures PasswordKey in PinChanged(settings, hash, pin) <==> PasswordKey in settings
  {
    OnlyPinAndFlagWritten(settings, hash, pin, PasswordKey);
  }

  class SecurityService {
    const store: Settings.SettingsStore
    /** SHA-256 over the UTF-8 bytes, printed in Base64. */
    const hash: string -> Digest

    constructor (store: Settings.SettingsStore, hash: string -> Digest)
      ensures this.store == store && this.hash == hash
    {
      this.store := store;
      this.hash := hash;
    }

    /** `IsSecurityEnabledAsync`. */
    method IsSecurityEnabled() returns (enabled: bool)
      ensures enabled == IsEnabled(store.values)
    {
      var setting := store.Get(EnabledKey);
      enabled := setting == Some("True");
    }

    /** `EnableSecurityAsync`: the digest first, then the flag. */
    method EnableSecurity(pin: string)
      modifies store
      ensures store.values == Enabled(old(store.values), hash, pin)
    {
      var hashedPin := hash(pin);
      store.Save(PinKey, hashedPin);
      store.Save(EnabledKey, "True");
    }

    /** `DisableSecurityAsync`: only the flag is written. */
    method DisableSecurity()
      modifies store
      ensures store.values == Disabled(old(store.values))
    {
      store.Save(EnabledKey, "False");
    }

    /** `ValidatePinAsync`. */
    method ValidatePin(pin: string) returns (valid: bool)
      ensures valid == Opens(store.values, hash, pin)
    {
      var storedHash := store.Get(PinKey);
      if storedHash.None? || storedHash.value == "" {
        return false;
      }
      var inputHash := hash(pin);
      valid := storedHash.value == inputHash;
    }

    /** `ChangePinAsync`: only the digest is written. */
    method ChangePin(newPin: string)
      modifies store
      ensures store.values == PinChanged(old(store.values), hash, newPin)
    {
      var hashedPin := hash(newPin);
      store.Save(PinKey, hashedPin);
    }
  }
}
