/**
 * The login screen: the submit gate, the online sign-in with its profile read,
 * the offline fallback against the vault of the last online login, the
 * biometric prompt and the password-reset request. The authentication service
 * and the profile read are parameters: their outcomes, not their workings.
 */
module Login {
  import opened Wrappers
  import opened KotlinStd
  import opened UserPrefs

  /** The credentials the fields start with. */
  const InitialEmail: string := "ranzatti@gmail.com"
  const InitialPassword: string := "123456"

  const MinPasswordLength: nat := 6

  /** The submit gate; `emailValid` is the platform e-mail pattern's verdict on the email field. */
  predicate CanSubmit(emailValid: bool, password: string) {
    emailValid && |password| >= MinPasswordLength
  }

  /** What the sign-in call reported, and who is signed in afterwards. */
  datatype AuthOutcome = SignInFailed | SignedIn(currentUid: Option<string>)

  /** What the read of the user's profile document reported. */
  datatype ProfileRead = NameRead(name: Option<string>) | ReadFailed

  /** The name the session takes after an online login. */
  function OnlineName(read: ProfileRead): (name: string)
    ensures read.NameRead? && read.name.Some? ==> name == read.name.value
    ensures read.ReadFailed? || read.name.None? ==> name == DefaultUserName
  {
    match read
    case NameRead(n) => n.GetOr(DefaultUserName)
    case ReadFailed => DefaultUserName
  }

  /**
   * The offline fallback's test: the email matches the remembered one ignoring
   * case, the password matches exactly, and a user id is remembered.
   */
  predicate OfflineAccepts(email: string, password: string, vault: map<string, string>) {
    && EqualsIgnoreCase(email, Get(vault, VaultEmail).GetOr(""))
    && password == Get(vault, VaultPassword).GetOr("")
    && Get(vault, VaultUid).GetOr("") != ""
  }

  class LoginScreenState {
    var email: string
    var password: string
    var isLoading: bool
    /** Whether the success callback has been called. */
    var proceeded: bool
    var hasPrompted: bool

    constructor ()
      ensures email == InitialEmail && password == InitialPassword
      ensures !isLoading && !proceeded && !hasPrompted
    {
      email := InitialEmail;
      password := InitialPassword;
      isLoading := false;
      proceeded := false;
      hasPrompted := false;
    }

    /**
     * `performLogin`, with `gate` the submit gate it was built with. An online
     * success rewrites the session and the vault; a success without a current
     * user leaves the spinner on; a failure falls back on the vault, which
     * only rewrites the session.
     */
    method PerformLogin(gate: bool, auth: AuthOutcome, profile: ProfileRead,
                        prefs: UserPrefsManager, vault: OfflineVault)
      modifies this, prefs, vault
      ensures email == old(email) && password == old(password) && hasPrompted == old(hasPrompted)
      ensures vault.biometricEnabled == old(vault.biometricEnabled)
      ensures !gate ==>
        && prefs.prefs == old(prefs.prefs) && vault.strings == old(vault.strings)
        && isLoading == old(isLoading) && proceeded == old(proceeded)
      ensures gate && auth.SignedIn? && auth.currentUid.Some? ==>
        && prefs.prefs == Saved(old(prefs.prefs), auth.currentUid.value, email, OnlineName(profile))
        && vault.strings == old(vault.strings)[VaultEmail := email][VaultPassword := password]
                                              [VaultUid := auth.currentUid.value][VaultName := OnlineName(profile)]
        && !isLoading && proceeded
      ensures gate && auth == SignedIn(None) ==>
        && prefs.prefs == old(prefs.prefs) && vault.strings == old(vault.strings)
        && isLoading && proceeded == old(proceeded)
      ensures gate && auth.SignInFailed? && OfflineAccepts(email, password, old(vault.strings)) ==>
        && prefs.prefs == Saved(old(prefs.prefs), old(vault.strings)[VaultUid], email,
                                Get(old(vault.strings), VaultName).GetOr(DefaultUserName))
        && vault.strings == old(vault.strings)
        && !isLoading && proceeded
      ensures gate && auth.SignInFailed? && !OfflineAccepts(email, password, old(vault.strings)) ==>
        && prefs.prefs == old(prefs.prefs) && vault.strings == old(vault.strings)
        && !isLoading && proceeded == old(proceeded)
      ensures proceeded && !old(proceeded) ==> LoggedIn(prefs.prefs)
    {
      if !gate {
        return;
      }
      isLoading := true;
      match auth {
        case SignedIn(current) =>
          if current.Some? {
            var uid := current.value;
            var realName := OnlineName(profile);
            prefs.SaveUser(uid, email, realName);
            vault.Remember(email, password, uid, realName);
            isLoading := false;
            proceeded := true;
          }
        case SignInFailed =>
          var savedUid := vault.GetString(VaultUid, "");
          var savedName := vault.GetString(VaultName, DefaultUserName);
          if EqualsIgnoreCase(email, vault.GetString(VaultEmail, "")) && password == vault.GetString(VaultPassword, "")
             && savedUid != "" {
            prefs.SaveUser(savedUid, email, savedName);
            isLoading := false;
            proceeded := true;
          } else {
            isLoading := false;
          }
      }
    }

    /** "ENTRAR": shown only while not loading, and enabled only through the gate. */
    method Submit(emailValid: bool, auth: AuthOutcome, profile: ProfileRead,
                  prefs: UserPrefsManager, vault: OfflineVault)
      requires !isLoading && CanSubmit(emailValid, password)
      modifies this, prefs, vault
      ensures email == old(email) && password == old(password)
      ensures vault.biometricEnabled == old(vault.biometricEnabled)
      ensures auth.SignedIn? && auth.currentUid.Some? ==>
        && prefs.prefs == Saved(old(prefs.prefs), auth.currentUid.value, email, OnlineName(profile))
        && proceeded
        && (auth.currentUid.value != "" ==> OfflineAccepts(email, password, vault.strings))
    {
      PerformLogin(true, auth, profile, prefs, vault);
      if auth.SignedIn? && auth.currentUid.Some? && auth.currentUid.value != "" {
        OnlineLoginEnablesOfflineLogin(old(vault.strings), email, password, auth.currentUid.value,
                                       OnlineName(profile), email);
      }
    }

    /**
     * The launch effect: it prompts at most once, and only with biometrics
     * enabled and both credentials remembered.
     */
    method AutoPrompt(vault: OfflineVault) returns (prompt: bool)
      modifies this
      ensures prompt <==> vault.biometricEnabled && !old(hasPrompted) && BiometricReady(vault.strings)
      ensures hasPrompted == (old(hasPrompted) || prompt)
      ensures email == old(email) && password == old(password)
      ensures isLoading == old(isLoading) && proceeded == old(proceeded)
    {
      prompt := false;
      if vault.biometricEnabled && !hasPrompted && BiometricReady(vault.strings) {
        hasPrompted := true;
        prompt := true;
      }
    }

    /**
     * A successful biometric check: the fields take the remembered credentials
     * and the login runs with the gate it was built with.
     */
    method BiometricSucceeded(gate: bool, auth: AuthOutcome, profile: ProfileRead,
                              prefs: UserPrefsManager, vault: OfflineVault)
      requires BiometricReady(vault.strings)
      modifies this, prefs, vault
      ensures email == old(vault.strings)[VaultEmail] && password == old(vault.strings)[VaultPassword]
      ensures vault.biometricEnabled == old(vault.biometricEnabled)
      ensures gate && auth.SignInFailed? && Get(old(vault.strings), VaultUid).GetOr("") != "" ==>
        proceeded && LoggedIn(prefs.prefs) && vault.strings == old(vault.strings)
    {
      email := vault.GetString(VaultEmail, "");
      password := vault.GetString(VaultPassword, "");
      EqualsIgnoreCaseIsEquivalence(email, email, email);
      PerformLogin(gate, auth, profile, prefs, vault);
    }
  }

  /** Both remembered credentials are non-empty. */
  predicate BiometricReady(vault: map<string, string>) {
    Get(vault, VaultEmail).GetOr("") != "" && Get(vault, VaultPassword).GetOr("") != ""
  }

  /** The biometric button: only with biometrics enabled and an email remembered. */
  predicate ShowsBiometricButton(biometricEnabled: bool, vault: map<string, string>) {
    biometricEnabled && Get(vault, VaultEmail).GetOr("") != ""
  }

  /** What can happen on the login screen. */
  datatype LoginEvent =
    | Launched
    | EnterPressed(emailValid: bool, auth: AuthOutcome, profile: ProfileRead)
    | BiometricPassed(gate: bool, auth: AuthOutcome, profile: ProfileRead)

  /**
   * No write of the vault sets the biometric flag: over any run of the login
   * screen that starts with the flag unset, every launch declines to prompt,
   * and the flag, and with it the button, stays off at the end.
   */
  method RunLoginScreen(screen: LoginScreenState, events: seq<LoginEvent>,
                        prefs: UserPrefsManager, vault: OfflineVault) returns (prompted: bool)
    requires !vault.biometricEnabled
    modifies screen, prefs, vault
    ensures !prompted
    ensures !vault.biometricEnabled
    ensures !ShowsBiometricButton(vault.biometricEnabled, vault.strings)
  {
    prompted := false;
    for i := 0 to |events|
      invariant !prompted && !vault.biometricEnabled
    {
      match events[i]
      case Launched =>
        prompted := screen.AutoPrompt(vault);
      case EnterPressed(emailValid, auth, profile) =>
        if !screen.isLoading && CanSubmit(emailValid, screen.password) {
          screen.Submit(emailValid, auth, profile, prefs, vault);
        }
      case BiometricPassed(gate, auth, profile) =>
        if BiometricReady(vault.strings) {
          screen.BiometricSucceeded(gate, auth, profile, prefs, vault);
        }
    }
  }

  /**
   * After an online login, the same password with the email in any letter case
   * passes the offline test, and the offline login restores the same user and name.
   */
  lemma OnlineLoginEnablesOfflineLogin(vault: map<string, string>, email: string, password: string,
                                       uid: string, name: string, typedEmail: string)
    requires uid != ""
    requires EqualsIgnoreCase(typedEmail, email)
    ensures var after := vault[VaultEmail := email][VaultPassword := password][VaultUid := uid][VaultName := name];
      && OfflineAccepts(typedEmail, password, after)
      && after[VaultUid] == uid
      && Get(after, VaultName).GetOr(DefaultUserName) == name
  {
  }

  /** A different password, or no remembered user, never passes the offline test. */
  lemma OfflineRejects(email: string, password: string, vault: map<string, string>)
    ensures password != Get(vault, VaultPassword).GetOr("") ==> !OfflineAccepts(email, password, vault)
    ensures VaultUid !in vault ==> !OfflineAccepts(email, password, vault)
    ensures !EqualsIgnoreCase(email, Get(vault, VaultEmail).GetOr("")) ==> !OfflineAccepts(email, password, vault)
  {
  }

  /** "Esqueceu a senha?": the address a reset link is requested for, when the email is valid. */
  function ResetRequest(emailValid: bool, email: string): (r: Option<string>)
    ensures r.Some? <==> emailValid
    ensures r.Some? ==> r.value == email
  {
    if emailValid then Some(email) else None
  }
}
