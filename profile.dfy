/**
 * The profile screen: who the user is (from the local row, the session file
 * or the offline vault), the reconciled statistics of the performance card,
 * and the name and avatar dialogs.
 */
module Profile {
  import opened Wrappers
  import opened Models
  import opened KotlinStd
  import opened UserStats
  import opened UserPrefs
  import Repository
  import Home

  // ---------------------------------------------------------------- identity

  /** The displayed name: the row's, else the saved one, else the vault's, else "Jogador". */
  function ProfileName(row: Option<UserEntity>, prefs: map<string, string>, vault: map<string, string>): string {
    match row
    case Some(u) => u.name
    case None =>
      match Get(prefs, KeyName)
      case Some(n) => n
      case None => Get(vault, VaultName).GetOr(DefaultUserName)
  }

  /** The displayed email: the row's, else the signed-in account's, else the vault's, else "". */
  function ProfileEmail(row: Option<UserEntity>, authEmail: Option<string>, vault: map<string, string>): string {
    match row
    case Some(u) => u.email
    case None =>
      match authEmail
      case Some(e) => e
      case None => Get(vault, VaultEmail).GetOr("")
  }

  /**
   * The profile and the home header show the same name whenever there is a
   * local row or a saved name; only without both does the profile fall back on
   * the vault where the header shows the default.
   */
  lemma ProfileNameAgreesWithHeader(row: Option<UserEntity>, prefs: map<string, string>, vault: map<string, string>)
    ensures row.Some? || KeyName in prefs ==> ProfileName(row, prefs, vault) == Home.HeaderName(row, prefs)
    ensures row.None? && KeyName !in prefs ==>
      && Home.HeaderName(row, prefs) == DefaultUserName
      && ProfileName(row, prefs, vault) == (if VaultName in vault then vault[VaultName] else DefaultUserName)
  {
  }

  // ---------------------------------------------------------------- statistics

  /** The exact sum of the attempts' scores. */
  function SumScores(attempts: seq<QuizAttempt>): int {
    if |attempts| == 0 then 0
    else SumScores(attempts[..|attempts| - 1]) + attempts[|attempts| - 1].score
  }

  /** `sumOf { it.score }` over `Int`: every addition wraps to 32 bits. */
  function SumOfInt(attempts: seq<QuizAttempt>): (s: int)
    ensures InIntRange(s)
  {
    if |attempts| == 0 then 0
    else ToInt(SumOfInt(attempts[..|attempts| - 1]) + attempts[|attempts| - 1].score)
  }

  /** Wrapping each addition gives the exact sum, wrapped once. */
  lemma {:induction false} SumOfIntIsWrappedSum(attempts: seq<QuizAttempt>)
    ensures SumOfInt(attempts) == ToInt(SumScores(attempts))
  {
    if |attempts| > 0 {
      var prefix := attempts[..|attempts| - 1];
      var last := attempts[|attempts| - 1].score;
      SumOfIntIsWrappedSum(prefix);
      ToIntOfCongruent(SumOfInt(prefix) + last, SumScores(prefix) + last);
    }
  }

  /** What the performance card shows: points, completed quizzes and all quizzes. */
  datatype Stats = Stats(score: int, done: int, total: int)

  function Max(a: int, b: int): int {
    if a >= b then a else b
  }

  /**
   * The reconciliation: each figure is the larger of the local row's and the
   * remote reads', so attempts saved while offline still count.
   */
  function Reconciled(roomScore: int, roomDone: int, activeCount: nat, completed: seq<QuizAttempt>): (s: Stats)
    ensures s.score >= roomScore && s.score >= SumOfInt(completed)
    ensures s.score == roomScore || s.score == SumOfInt(completed)
    ensures s.done >= roomDone && s.done >= |completed|
    ensures s.done == roomDone || s.done == |completed|
    ensures s.total >= activeCount && s.total >= s.done
    ensures s.total == activeCount || s.total == s.done
  {
    var done := Max(roomDone, |completed|);
    Stats(Max(roomScore, SumOfInt(completed)), done, Max(activeCount, done))
  }

  /** "Abertos": all quizzes minus completed ones, never below zero. */
  function OpenCount(s: Stats): (n: int)
    ensures n >= 0
    ensures s.total >= s.done ==> n == s.total - s.done
    ensures s.total < s.done ==> n == 0
  {
    Max(s.total - s.done, 0)
  }

  /** After reconciliation the clamp never bites: open quizzes are the active ones not yet done, or none. */
  lemma ReconciledOpenCount(roomScore: int, roomDone: int, activeCount: nat, completed: seq<QuizAttempt>)
    ensures var s := Reconciled(roomScore, roomDone, activeCount, completed);
      && OpenCount(s) == s.total - s.done
      && OpenCount(s) == Max(activeCount - s.done, 0)
  {
  }

  /** "Erros Média": a fifth of the completed quizzes, truncated. */
  function AverageMisses(done: int): (m: int)
    ensures done >= 0 ==> m >= 0 && 0 <= done - 5 * m < 5
  {
    TruncDiv(done, 5)
  }

  // ---------------------------------------------------------------- the name edit

  /**
   * The session file after the name dialog's save, as the screen writes it: the
   * new name goes in the email argument of `saveUser` and the email in the
   * name argument.
   */
  function NameEditPrefsAsWritten(prefs: map<string, string>, uid: string, nameToEdit: string, userEmail: string)
    : map<string, string>
  {
    Saved(prefs, uid, nameToEdit, userEmail)
  }

  /**
   * As written, the saved name becomes the email and the saved email the new
   * name; without a local row the home header then greets the user by email.
   */
  lemma NameEditAsWrittenSwapsFields(prefs: map<string, string>, uid: string, nameToEdit: string, userEmail: string)
    ensures var after := NameEditPrefsAsWritten(prefs, uid, nameToEdit, userEmail);
      && UserNameOf(after) == userEmail
      && Get(after, KeyEmail) == Some(nameToEdit)
      && Home.HeaderName(None, after) == userEmail
      && (nameToEdit != userEmail ==> UserNameOf(after) != nameToEdit)
  {
    SaveThenRead(prefs, uid, nameToEdit, userEmail);
  }

  /** A concrete rename that shows the swap. */
  lemma NameEditAsWrittenCounterexample()
    ensures UserNameOf(NameEditPrefsAsWritten(map[], "u1", "Ana", "ana@mail.com")) == "ana@mail.com"
    ensures UserNameOf(NameEditPrefsAsWritten(map[], "u1", "Ana", "ana@mail.com")) != "Ana"
  {
    SaveThenRead(map[], "u1", "Ana", "ana@mail.com");
  }

  /** The session file after the name dialog's save, with the arguments in `saveUser`'s order. */
  function NameEditPrefs(prefs: map<string, string>, uid: string, nameToEdit: string, userEmail: string)
    : map<string, string>
  {
    Saved(prefs, uid, userEmail, nameToEdit)
  }

  /** The corrected save keeps the email and stores the new name where every reader looks. */
  lemma NameEditKeepsNameAndEmail(prefs: map<string, string>, uid: string, nameToEdit: string, userEmail: string)
    ensures var after := NameEditPrefs(prefs, uid, nameToEdit, userEmail);
      && UserNameOf(after) == nameToEdit
      && Get(after, KeyEmail) == Some(userEmail)
      && Get(after, KeyUid) == Some(uid)
      && Home.HeaderName(None, after) == nameToEdit
  {
    SaveThenRead(prefs, uid, userEmail, nameToEdit);
  }

  // ---------------------------------------------------------------- the screen

  class ProfileScreenState {
    var totalQuizzesCount: int
    var quizzesDoneState: int
    var userScoreState: int
    var showAvatarDialog: bool
    var showEditNameDialog: bool
    var nameToEdit: string

    constructor (userName: string)
      ensures totalQuizzesCount == 0 && quizzesDoneState == 0 && userScoreState == 0
      ensures !showAvatarDialog && !showEditNameDialog && nameToEdit == userName
    {
      totalQuizzesCount := 0;
      quizzesDoneState := 0;
      userScoreState := 0;
      showAvatarDialog := false;
      showEditNameDialog := false;
      nameToEdit := userName;
    }

    function Current(): Stats
      reads this
    {
      Stats(userScoreState, quizzesDoneState, totalQuizzesCount)
    }

    /**
     * The statistics effect: with a user id, reads the active quizzes and the
     * user's attempts and reconciles them with the local row.
     */
    method Reconcile(uid: string, row: Option<UserEntity>,
                     active: Wrappers.Fetched<seq<Quiz>>, completed: Wrappers.Fetched<seq<QuizAttempt>>)
      modifies this
      ensures uid == "" ==> Current() == old(Current())
      ensures uid != "" ==> Current() == Reconciled(if row.Some? then row.value.totalScore else 0,
                                                   if row.Some? then row.value.quizzesDone else 0,
                                                   |Repository.GetActiveQuizzes(active)|,
                                                   Repository.GetUserCompletedQuizzes(completed))
      ensures uid != "" ==> totalQuizzesCount >= quizzesDoneState && OpenCount(Current()) >= 0
      ensures showAvatarDialog == old(showAvatarDialog) && showEditNameDialog == old(showEditNameDialog)
      ensures nameToEdit == old(nameToEdit)
    {
      if uid != "" {
        var allQuizzes := Repository.GetActiveQuizzes(active);
        var completedQuizzes := Repository.GetUserCompletedQuizzes(completed);
        var calculatedScore := SumOfInt(completedQuizzes);
        var roomScore := if row.Some? then row.value.totalScore else 0;
        var roomDone := if row.Some? then row.value.quizzesDone else 0;
        userScoreState := Max(roomScore, calculatedScore);
        quizzesDoneState := Max(roomDone, |completedQuizzes|);
        totalQuizzesCount := Max(|allQuizzes|, quizzesDoneState);
      }
    }

    /** The pencil icon: the dialog opens on the current name. */
    method OpenNameDialog(userName: string)
      modifies this
      ensures showEditNameDialog && nameToEdit == userName
      ensures Current() == old(Current()) && showAvatarDialog == old(showAvatarDialog)
    {
      nameToEdit := userName;
      showEditNameDialog := true;
    }

    method EditName(text: string)
      modifies this
      ensures nameToEdit == text
      ensures Current() == old(Current()) && showAvatarDialog == old(showAvatarDialog)
      ensures showEditNameDialog == old(showEditNameDialog)
    {
      nameToEdit := text;
    }

    /**
     * "Salvar": a blank name does nothing; otherwise the local row (when there
     * is one) takes the new name, the session file is rewritten and the dialog
     * closes. The session write is the corrected one.
     */
    method ConfirmName(dao: UserDao, prefs: UserPrefsManager, uid: string, userEmail: string)
      requires dao.Valid()
      modifies this, dao, prefs
      ensures dao.Valid()
      ensures IsBlank(old(nameToEdit)) ==>
        dao.rows == old(dao.rows) && prefs.prefs == old(prefs.prefs) && showEditNameDialog == old(showEditNameDialog)
      ensures !IsBlank(old(nameToEdit)) ==>
        && dao.rows == (if uid in old(dao.rows) then old(dao.rows)[uid := old(dao.rows)[uid].(name := old(nameToEdit))]
                        else old(dao.rows))
        && prefs.prefs == NameEditPrefs(old(prefs.prefs), uid, old(nameToEdit), userEmail)
        && !showEditNameDialog
      ensures Current() == old(Current()) && nameToEdit == old(nameToEdit) && showAvatarDialog == old(showAvatarDialog)
    {
      if !IsBlank(nameToEdit) {
        var row := dao.GetUserById(uid);
        if row.Some? {
          dao.InsertUser(row.value.(name := nameToEdit));
        }
        prefs.SaveUser(uid, userEmail, nameToEdit);
        showEditNameDialog := false;
      }
    }

    /** "Cancelar" or a dismissal closes the name dialog and writes nothing. */
    method DismissNameDialog()
      modifies this
      ensures !showEditNameDialog
      ensures Current() == old(Current()) && showAvatarDialog == old(showAvatarDialog) && nameToEdit == old(nameToEdit)
    {
      showEditNameDialog := false;
    }

    method OpenAvatarDialog()
      modifies this
      ensures showAvatarDialog
      ensures Current() == old(Current()) && showEditNameDialog == old(showEditNameDialog) && nameToEdit == old(nameToEdit)
    {
      showAvatarDialog := true;
    }

    /** A tap on an avatar: the local row takes it, and the dialog closes. */
    method ChooseAvatar(dao: UserDao, uid: string, avatar: string)
      requires dao.Valid()
      modifies this, dao
      ensures dao.Valid()
      ensures dao.rows == WithAvatar(old(dao.rows), uid, avatar)
      ensures !showAvatarDialog
      ensures Current() == old(Current()) && showEditNameDialog == old(showEditNameDialog) && nameToEdit == old(nameToEdit)
    {
      dao.UpdateAvatar(uid, avatar);
      showAvatarDialog := false;
    }

    /** A dismissal closes the avatar dialog and writes nothing. */
    method DismissAvatarDialog()
      modifies this
      ensures !showAvatarDialog
      ensures Current() == old(Current()) && showEditNameDialog == old(showEditNameDialog) && nameToEdit == old(nameToEdit)
    {
      showAvatarDialog := false;
    }
  }

  /** After a rename the profile shows the new name, with or without a local row. */
  lemma RenameIsShown(rows: map<string, UserEntity>, prefs: map<string, string>, vault: map<string, string>,
                      uid: string, nameToEdit: string, userEmail: string)
    ensures var rows' := if uid in rows then rows[uid := rows[uid].(name := nameToEdit)] else rows;
      ProfileName(Lookup(rows', uid), NameEditPrefs(prefs, uid, nameToEdit, userEmail), vault) == nameToEdit
  {
    SaveThenRead(prefs, uid, userEmail, nameToEdit);
  }
}
