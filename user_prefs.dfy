/**
 * The two preference files the app keeps on the device: the session file of
 * `UserPrefsManager` (three string keys), and the "BypassOffline" file the
 * login screen fills so that a later login can succeed without the network.
 */
module UserPrefs {
  import opened Wrappers

  const KeyUid: string := "user_uid"
  const KeyEmail: string := "user_email"
  const KeyName: string := "user_name"

  /** The name `getUserName` reports when none is stored. */
  const DefaultUserName: string := "Jogador"

  /** `prefs.getString(key, null)`. */
  function Get(prefs: map<string, string>, key: string): Option<string> {
    if key in prefs then Some(prefs[key]) else None
  }

  /** The file after `saveUser(uid, email, name)`. */
  function Saved(prefs: map<string, string>, uid: string, email: string, name: string): map<string, string> {
    prefs[KeyUid := uid][KeyEmail := email][KeyName := name]
  }

  /** `getUserName()`: the stored name, else the default. */
  function UserNameOf(prefs: map<string, string>): string {
    Get(prefs, KeyName).GetOr(DefaultUserName)
  }

  /** `isUserLoggedIn()`. */
  predicate LoggedIn(prefs: map<string, string>) {
    KeyUid in prefs
  }

  class UserPrefsManager {
    var prefs: map<string, string>

    /** The file as found on the device. */
    constructor (stored: map<string, string>)
      ensures prefs == stored
    {
      prefs := stored;
    }

    method SaveUser(uid: string, email: string, name: string)
      modifies this
      ensures prefs == Saved(old(prefs), uid, email, name)
    {
      prefs := prefs[KeyUid := uid][KeyEmail := email][KeyName := name];
    }

    function GetUserName(): string
      reads this
    {
      UserNameOf(prefs)
    }

    function GetUid(): Option<string>
      reads this
    {
      Get(prefs, KeyUid)
    }

    function GetEmail(): Option<string>
      reads this
    {
      Get(prefs, KeyEmail)
    }

    function GetName(): Option<string>
      reads this
    {
      Get(prefs, KeyName)
    }

    /** `clearUser()`: removes every key of the file. */
    method ClearUser()
      modifies this
      ensures prefs == map[]
    {
      prefs := map[];
    }

    predicate IsUserLoggedIn()
      reads this
    {
      LoggedIn(prefs)
    }
  }

  /** The three keys are distinct, so a save stores each value where its getter finds it. */
  lemma SaveThenRead(prefs: map<string, string>, uid: string, email: string, name: string)
    ensures Get(Saved(prefs, uid, email, name), KeyUid) == Some(uid)
    ensures Get(Saved(prefs, uid, email, name), KeyEmail) == Some(email)
    ensures Get(Saved(prefs, uid, email, name), KeyName) == Some(name)
    ensures UserNameOf(Saved(prefs, uid, email, name)) == name
    ensures LoggedIn(Saved(prefs, uid, email, name))
  {
  }

  /** A second save overwrites all three values: the last write wins. */
  lemma SaveTwiceLastWins(prefs: map<string, string>, uid1: string, email1: string, name1: string,
                          uid2: string, email2: string, name2: string)
    ensures Saved(Saved(prefs, uid1, email1, name1), uid2, email2, name2) == Saved(prefs, uid2, email2, name2)
  {
  }

  /** Without a stored name, `getUserName` gives the default while `getName` gives null. */
  lemma MissingNameDefaults(prefs: map<string, string>)
    requires KeyName !in prefs
    ensures UserNameOf(prefs) == DefaultUserName
    ensures Get(prefs, KeyName) == None
  {
  }

  /** A cleared file reports logged-out and every getter its default. */
  lemma ClearedFileReadsDefaults()
    ensures !LoggedIn(map[])
    ensures Get(map[], KeyUid) == None && Get(map[], KeyEmail) == None && Get(map[], KeyName) == None
    ensures UserNameOf(map[]) == DefaultUserName
  {
  }

  // ------------------------------------------------------- offline vault

  const VaultEmail: string := "email"
  const VaultPassword: string := "password"
  const VaultUid: string := "uid"
  const VaultName: string := "name"

  /**
   * The user id the screens act for: the signed-in account's, else the one the
   * offline vault remembers, else "".
   */
  function ActingUid(authUid: Option<string>, vaultStrings: map<string, string>): (uid: string)
    ensures authUid.Some? ==> uid == authUid.value
    ensures authUid.None? && VaultUid !in vaultStrings ==> uid == ""
    ensures authUid.None? && VaultUid in vaultStrings ==> uid == vaultStrings[VaultUid]
  {
    match authUid
    case Some(u) => u
    case None => Get(vaultStrings, VaultUid).GetOr("")
  }

  /**
   * The "BypassOffline" file: the last credentials and profile that logged in
   * online, and a biometric flag that no code path sets.
   */
  class OfflineVault {
    var strings: map<string, string>
    var biometricEnabled: bool

    constructor (stored: map<string, string>, biometric: bool)
      ensures strings == stored && biometricEnabled == biometric
    {
      strings := stored;
      biometricEnabled := biometric;
    }

    /** `getString(key, default)`. */
    function GetString(key: string, default: string): string
      reads this
    {
      Get(strings, key).GetOr(default)
    }

    /** The four writes made after an online login. */
    method Remember(email: string, password: string, uid: string, name: string)
      modifies this
      ensures strings == old(strings)[VaultEmail := email][VaultPassword := password][VaultUid := uid][VaultName := name]
      ensures biometricEnabled == old(biometricEnabled)
    {
      strings := strings[VaultEmail := email][VaultPassword := password][VaultUid := uid][VaultName := name];
    }
  }
}
