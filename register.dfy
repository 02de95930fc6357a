/**
 * The registration screen: the form gate, and the three writes of a new
 * account (the remote profile, the local row and the session file), of which
 * the local two happen only after the remote one succeeded.
 */
module Register {
  import opened Wrappers
  import opened UserStats
  import opened UserPrefs

  const InitialName: string := "teste4"
  const InitialEmail: string := "teste4@teste.com"
  const InitialPassword: string := "123456"

  const MinPasswordLength: nat := 6

  predicate PasswordsMatch(password: string, confirmPassword: string) {
    password == confirmPassword && password != ""
  }

  /** The form gate; `emailValid` is the platform e-mail pattern's verdict. */
  predicate IsFormValid(name: string, emailValid: bool, password: string, confirmPassword: string) {
    name != "" && emailValid && |password| >= MinPasswordLength && PasswordsMatch(password, confirmPassword)
  }

  /** The gate's password conditions come down to: at least six characters, typed twice alike. */
  lemma FormValidIff(name: string, emailValid: bool, password: string, confirmPassword: string)
    ensures IsFormValid(name, emailValid, password, confirmPassword) <==>
      name != "" && emailValid && |password| >= MinPasswordLength && confirmPassword == password
  {
  }

  /** What account creation reported, and who is signed in afterwards. */
  datatype CreateOutcome = CreateFailed | Created(currentUid: Option<string>)

  /** The local row of a new account: no score, no completed quiz, the default avatar. */
  function NewAccountRow(uid: string, name: string, email: string): (u: UserEntity)
    ensures u == NewUserEntity(uid, name, email)
    ensures u.totalScore == 0 && u.quizzesDone == 0 && u.avatar == DefaultAvatar
  {
    UserEntity(uid, name, email, 0, 0, DefaultAvatar)
  }

  class RegisterScreenState {
    var name: string
    var email: string
    var password: string
    var confirmPassword: string
    var isLoading: bool
    var proceeded: bool

    constructor ()
      ensures name == InitialName && email == InitialEmail
      ensures password == InitialPassword && confirmPassword == InitialPassword
      ensures !isLoading && !proceeded
    {
      name := InitialName;
      email := InitialEmail;
      password := InitialPassword;
      confirmPassword := InitialPassword;
      isLoading := false;
      proceeded := false;
    }

    /**
     * `performRegister`: with a valid form, create the account; once the
     * remote profile is written, insert the local row and save the session.
     * An account created without a current user leaves the spinner on.
     */
    method PerformRegister(emailValid: bool, created: CreateOutcome, remoteWriteOk: bool,
                           dao: UserDao, prefs: UserPrefsManager)
      requires dao.Valid()
      modifies this, dao, prefs
      ensures dao.Valid()
      ensures name == old(name) && email == old(email)
      ensures password == old(password) && confirmPassword == old(confirmPassword)
      ensures !IsFormValid(name, emailValid, password, confirmPassword) ==>
        dao.rows == old(dao.rows) && prefs.prefs == old(prefs.prefs)
        && isLoading == old(isLoading) && proceeded == old(proceeded)
      ensures IsFormValid(name, emailValid, password, confirmPassword) ==>
        if created.Created? && created.currentUid.Some? && remoteWriteOk then
          var uid := created.currentUid.value;
          && dao.rows == old(dao.rows)[uid := NewAccountRow(uid, name, email)]
          && prefs.prefs == Saved(old(prefs.prefs), uid, email, name)
          && !isLoading && proceeded
        else
          && dao.rows == old(dao.rows) && prefs.prefs == old(prefs.prefs)
          && proceeded == old(proceeded)
          && isLoading == (created == Created(None))
    {
      if !IsFormValid(name, emailValid, password, confirmPassword) {
        return;
      }
      isLoading := true;
      match created {
        case Created(current) =>
          if current.Some? {
            var uid := current.value;
            if remoteWriteOk {
              dao.InsertUser(UserEntity(uid, name, email, 0, 0, DefaultAvatar));
              prefs.SaveUser(uid, email, name);
              isLoading := false;
              proceeded := true;
            } else {
              isLoading := false;
            }
          }
        case CreateFailed =>
          isLoading := false;
      }
    }
  }

  /**
   * A completed registration leaves the user logged in, greeted by the typed
   * name, with a fresh row under the new id.
   */
  lemma RegisteredUserIsLoggedIn(rows: map<string, UserEntity>, prefs: map<string, string>,
                                 uid: string, name: string, email: string)
    ensures var rows' := rows[uid := NewAccountRow(uid, name, email)];
      var prefs' := Saved(prefs, uid, email, name);
      && LoggedIn(prefs') && UserNameOf(prefs') == name
      && Lookup(rows', uid) == Some(NewUserEntity(uid, name, email))
  {
    SaveThenRead(prefs, uid, email, name);
  }
}
