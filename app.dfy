/**
 * The activity that hosts every screen: which screen is shown, the setup and
 * edit state handed to the authoring screen, the quiz being played, and the
 * callbacks through which the screens reach the repository, the local table
 * and the session file.
 */
module App {
  import opened Wrappers
  import opened Models
  import opened QuestionForm
  import opened UserStats
  import opened UserPrefs
  import Repository
  import SetupDialog

  datatype Screen =
    | LoginScreen
    | RegisterScreen
    | HomeScreen
    | RankingScreen
    | ProfileScreen
    | CreateQuestionsScreen
    | PlayQuizScreen

  /** The first screen: home when a session is saved or an account is signed in, login otherwise. */
  function StartScreen(loggedIn: bool, authUid: Option<string>): (s: Screen)
    ensures s == HomeScreen <==> loggedIn || authUid.Some?
    ensures s == HomeScreen || s == LoginScreen
  {
    if loggedIn || authUid.Some? then HomeScreen else LoginScreen
  }

  /** The author name of a saved quiz: the session's name, else "Membro". */
  const FallbackAuthorName: string := "Membro"

  /** The form values of stored questions, in order. */
  function FormValuesOf(qs: seq<Question>): (r: seq<FormValues>)
    ensures |r| == |qs|
    ensures forall i :: 0 <= i < |qs| ==>
      r[i].text == qs[i].text && r[i].options == qs[i].options && r[i].correctAnswerIndex == qs[i].correctAnswerIndex
  {
    seq(|qs|, i requires 0 <= i < |qs| => FormValues(qs[i].text, qs[i].options, qs[i].correctAnswerIndex))
  }

  /** Writing forms as questions and reading the questions back as forms gives the forms again. */
  lemma FormValuesRoundTrip(quizId: string, ids: seq<string>, vals: seq<FormValues>)
    requires |ids| == |vals|
    ensures FormValuesOf(Repository.BatchList(quizId, ids, vals)) == vals
  {
    var back := FormValuesOf(Repository.BatchList(quizId, ids, vals));
    assert forall i :: 0 <= i < |vals| ==> back[i] == vals[i];
  }

  /**
   * Editing a quiz right after it was published reopens exactly the forms it
   * was published from, in order.
   */
  lemma EditAfterPublishReopensForms(qs: map<string, Question>, quizId: string, isEdit: bool,
                                     ids: seq<string>, vals: seq<FormValues>, f: Wrappers.Fetched<seq<Question>>)
    requires |ids| == |vals|
    requires forall i, j :: 0 <= i < j < |ids| ==> ids[i] != ids[j]
    requires isEdit || forall k :: k in qs ==> qs[k].quizId != quizId
    requires !f.Unreachable?
    requires Repository.Lists(f.docs, Repository.QuestionsAfterPublish(qs, quizId, isEdit, Repository.Online, ids, vals),
                              Repository.QuestionKey)
    ensures FormValuesOf(Repository.GetQuestionsByQuizId(quizId, f)) == vals
  {
    Repository.PublishedQuestionsReadBack(qs, quizId, isEdit, ids, vals, f);
    FormValuesRoundTrip(quizId, ids, vals);
  }

  /** One new form per stored question, each sized to and filled from its question. */
  method LoadFormStates(questions: seq<Question>) returns (states: seq<QuestionFormState>)
    ensures |states| == |questions|
    ensures forall i :: 0 <= i < |states| ==> fresh(states[i])
    ensures forall i, j :: 0 <= i < j < |states| ==> states[i] != states[j]
    ensures Snapshot(states) == FormValuesOf(questions)
  {
    states := [];
    for i := 0 to |questions|
      invariant |states| == i
      invariant forall j :: 0 <= j < i ==> fresh(states[j])
      invariant forall j, k :: 0 <= j < k < i ==> states[j] != states[k]
      invariant forall j :: 0 <= j < i ==> states[j].Values() == FormValuesOf(questions)[j]
    {
      var q := questions[i];
      var s := new QuestionFormState(|q.options|);
      s.SetQuestionText(q.text);
      s.SetOptions(q.options);
      s.SetCorrectAnswerIndex(q.correctAnswerIndex);
      states := states + [s];
    }
  }

  /** The alternatives count of an edit: the first question's option count, else four. */
  function EditAlternatives(questions: seq<Question>): (n: nat)
    ensures |questions| > 0 ==> n == |questions[0].options|
    ensures |questions| == 0 ==> n == DefaultAlternativesCount
  {
    if |questions| > 0 then |questions[0].options| else DefaultAlternativesCount
  }

  class MainActivity {
    var currentScreen: Screen
    var showSetupDialog: bool
    var setupTitle: string
    var setupCount: int
    var setupAlternatives: nat
    var editQuizId: Option<string>
    var editInitialQuestions: Option<seq<QuestionFormState>>
    var playQuizId: string
    var playQuizTitle: string
    /** The account the authentication service reports as signed in. */
    var authUid: Option<string>

    const repo: Repository.QuizRepository
    const dao: UserDao
    const prefs: UserPrefsManager
    const vault: OfflineVault

    ghost predicate Valid()
      reads this, repo, dao
    {
      repo.Valid() && dao.Valid()
    }

    /** The user id the callbacks act for. */
    function ActingUser(): string
      reads this, vault
    {
      ActingUid(authUid, vault.strings)
    }

    constructor (repo: Repository.QuizRepository, dao: UserDao, prefs: UserPrefsManager, vault: OfflineVault,
                 authUid: Option<string>)
      requires repo.Valid() && dao.Valid()
      ensures Valid()
      ensures this.repo == repo && this.dao == dao && this.prefs == prefs && this.vault == vault
      ensures currentScreen == StartScreen(LoggedIn(prefs.prefs), authUid)
      ensures !showSetupDialog && setupTitle == "" && setupCount == 5 && setupAlternatives == 4
      ensures editQuizId.None? && editInitialQuestions.None?
      ensures playQuizId == "" && playQuizTitle == "" && this.authUid == authUid
    {
      this.repo := repo;
      this.dao := dao;
      this.prefs := prefs;
      this.vault := vault;
      this.authUid := authUid;
      currentScreen := StartScreen(prefs.IsUserLoggedIn(), authUid);
      showSetupDialog := false;
      setupTitle := "";
      setupCount := 5;
      setupAlternatives := 4;
      editQuizId := None;
      editInitialQuestions := None;
      playQuizId := "";
      playQuizTitle := "";
    }

    /** The login screen's success callback; `current` is the account signed in afterwards, if any. */
    method OnLoginSuccess(current: Option<string>)
      requires currentScreen == LoginScreen
      modifies this
      ensures currentScreen == HomeScreen && authUid == current
      ensures showSetupDialog == old(showSetupDialog) && editQuizId == old(editQuizId)
      ensures playQuizId == old(playQuizId)
    {
      authUid := current;
      currentScreen := HomeScreen;
    }

    method OnNavigateToRegister()
      requires currentScreen == LoginScreen
      modifies this
      ensures currentScreen == RegisterScreen && authUid == old(authUid)
    {
      currentScreen := RegisterScreen;
    }

    /** The registration screen's back link leads to the login screen. */
    method OnRegisterBack()
      requires currentScreen == RegisterScreen
      modifies this
      ensures currentScreen == LoginScreen && authUid == old(authUid)
    {
      currentScreen := LoginScreen;
    }

    method OnRegisterSuccess(current: Option<string>)
      requires currentScreen == RegisterScreen
      modifies this
      ensures currentScreen == HomeScreen && authUid == current
    {
      authUid := current;
      currentScreen := HomeScreen;
    }

    /** "Sair": signs out and clears the session file; the vault is kept. */
    method OnLogout()
      requires currentScreen == HomeScreen || currentScreen == ProfileScreen
      modifies this, prefs
      ensures currentScreen == LoginScreen && authUid.None?
      ensures prefs.prefs == map[]
      ensures vault.strings == old(vault.strings)
      ensures ActingUser() == Get(vault.strings, VaultUid).GetOr("")
    {
      authUid := None;
      prefs.ClearUser();
      currentScreen := LoginScreen;
    }

    method OnNavigateToCreateQuiz()
      requires currentScreen == HomeScreen
      modifies this
      ensures showSetupDialog && currentScreen == HomeScreen
      ensures editQuizId == old(editQuizId) && setupTitle == old(setupTitle)
    {
      showSetupDialog := true;
    }

    method OnDismissSetup()
      requires currentScreen == HomeScreen && showSetupDialog
      modifies this
      ensures !showSetupDialog && currentScreen == HomeScreen
      ensures setupTitle == old(setupTitle) && setupCount == old(setupCount)
    {
      showSetupDialog := false;
    }

    /** The dialog's "Próximo": a new quiz, with the dialog's figures. */
    method OnSetupNext(request: SetupDialog.NextRequest)
      requires currentScreen == HomeScreen && showSetupDialog
      requires request.alternatives >= 0
      modifies this
      ensures currentScreen == CreateQuestionsScreen && !showSetupDialog
      ensures setupCount == request.count && setupTitle == request.title && setupAlternatives == request.alternatives
      ensures editQuizId.None? && editInitialQuestions.None?
    {
      setupCount := request.count;
      setupTitle := request.title;
      setupAlternatives := request.alternatives;
      editQuizId := None;
      editInitialQuestions := None;
      showSetupDialog := false;
      currentScreen := CreateQuestionsScreen;
    }

    method OnPlayQuiz(id: string, title: string)
      requires currentScreen == HomeScreen
      modifies this
      ensures currentScreen == PlayQuizScreen && playQuizId == id && playQuizTitle == title
      ensures editQuizId == old(editQuizId)
    {
      playQuizId := id;
      playQuizTitle := title;
      currentScreen := PlayQuizScreen;
    }

    /**
     * A tap on a draft: its questions are read and turned into forms, and the
     * authoring screen opens on them as an edit of that quiz.
     */
    method OnEditDraft(id: string, title: string, read: Wrappers.Fetched<seq<Question>>)
      requires currentScreen == HomeScreen
      modifies this
      ensures currentScreen == CreateQuestionsScreen
      ensures editQuizId == Some(id) && setupTitle == title
      ensures OpensEditorOn(Repository.GetQuestionsByQuizId(id, read))
      ensures showSetupDialog == old(showSetupDialog)
    {
      var questions := Repository.GetQuestionsByQuizId(id, read);
      OpenEditor(id, title, questions);
    }

    /** The editor's figures and forms are those of `questions`, in fresh form states. */
    ghost predicate OpensEditorOn(questions: seq<Question>)
      reads this
      reads if editInitialQuestions.Some? then set i | 0 <= i < |editInitialQuestions.value| :: editInitialQuestions.value[i] else {}
    {
      && setupCount == |questions|
      && setupAlternatives == EditAlternatives(questions)
      && editInitialQuestions.Some?
      && |editInitialQuestions.value| == |questions|
      && Snapshot(editInitialQuestions.value) == FormValuesOf(questions)
    }

    method OpenEditor(id: string, title: string, questions: seq<Question>)
      modifies this
      ensures currentScreen == CreateQuestionsScreen
      ensures editQuizId == Some(id) && setupTitle == title
      ensures OpensEditorOn(questions)
      ensures editInitialQuestions.Some? && forall i :: 0 <= i < |editInitialQuestions.value| ==> fresh(editInitialQuestions.value[i])
      ensures showSetupDialog == old(showSetupDialog)
    {
      var loadedStates := LoadFormStates(questions);
      assert |loadedStates| > 0 ==> loadedStates[0].Values() == Snapshot(loadedStates)[0];
      setupTitle := title;
      setupCount := |loadedStates|;
      setupAlternatives := if |loadedStates| > 0 then |loadedStates[0].options| else DefaultAlternativesCount;
      editQuizId := Some(id);
      editInitialQuestions := Some(loadedStates);
      currentScreen := CreateQuestionsScreen;
    }

    method OnNavigateToRanking()
      requires currentScreen == HomeScreen || currentScreen == ProfileScreen
      modifies this
      ensures currentScreen == RankingScreen && authUid == old(authUid)
    {
      currentScreen := RankingScreen;
    }

    method OnNavigateToProfile()
      requires currentScreen == HomeScreen || currentScreen == RankingScreen
      modifies this
      ensures currentScreen == ProfileScreen && authUid == old(authUid)
    {
      currentScreen := ProfileScreen;
    }

    method OnNavigateToHome()
      requires currentScreen == RankingScreen || currentScreen == ProfileScreen
      modifies this
      ensures currentScreen == HomeScreen && authUid == old(authUid)
    {
      currentScreen := HomeScreen;
    }

    /** Leaving the authoring screen drops the edit. */
    method OnCreateBack()
      requires currentScreen == CreateQuestionsScreen
      modifies this
      ensures currentScreen == HomeScreen && editQuizId.None? && editInitialQuestions.None?
      ensures setupTitle == old(setupTitle)
    {
      editQuizId := None;
      editInitialQuestions := None;
      currentScreen := HomeScreen;
    }

    /**
     * The authoring screen's save: publishes under the acting user and the
     * session's name, and, since publishing always reports success, drops the
     * edit and returns home.
     */
    method OnSave(questionsList: seq<QuestionFormState>, finalStatus: string,
                  newQuizId: string, newQuestionIds: seq<string>, now: int, oldQuestions: Repository.Connectivity)
      requires currentScreen == CreateQuestionsScreen && Valid()
      requires Repository.ValidDocId(newQuizId) && newQuizId !in repo.quizzes
      requires forall k :: k in repo.questions ==> repo.questions[k].quizId != newQuizId
      requires |newQuestionIds| == |questionsList|
      requires forall i :: 0 <= i < |newQuestionIds| ==>
        Repository.ValidDocId(newQuestionIds[i]) && newQuestionIds[i] !in repo.questions
      requires forall i, j :: 0 <= i < j < |newQuestionIds| ==> newQuestionIds[i] != newQuestionIds[j]
      modifies this, repo
      ensures Valid()
      ensures currentScreen == HomeScreen && editQuizId.None? && editInitialQuestions.None?
      ensures repo.attempts == old(repo.attempts)
      ensures var quizId := if old(editQuizId).Some? then old(editQuizId).value else newQuizId;
        Repository.ValidDocId(quizId) ==>
          && repo.quizzes == old(repo.quizzes)[quizId := Repository.QuizRecord(
               quizId, setupTitle, ActingUid(authUid, vault.strings), prefs.GetName().GetOr(FallbackAuthorName),
               |questionsList|, finalStatus,
               Repository.CreatedAtAfterPublish(old(repo.quizzes), quizId, old(editQuizId).Some?, now))]
          && repo.questions == Repository.QuestionsAfterPublish(old(repo.questions), quizId, old(editQuizId).Some?,
               oldQuestions, newQuestionIds, Snapshot(questionsList))
    {
      ghost var vals := Snapshot(questionsList);
      var authorId := ActingUid(authUid, vault.strings);
      var authorName := prefs.GetName().GetOr(FallbackAuthorName);
      var success := repo.PublishQuiz(editQuizId, setupTitle, authorId, authorName, questionsList, finalStatus,
                                      newQuizId, newQuestionIds, now, oldQuestions);
      if success {
        editQuizId := None;
        editInitialQuestions := None;
        currentScreen := HomeScreen;
      }
      assert Snapshot(questionsList) == vals;
    }

    method OnPlayBack()
      requires currentScreen == PlayQuizScreen
      modifies this
      ensures currentScreen == HomeScreen && playQuizId == old(playQuizId)
    {
      currentScreen := HomeScreen;
    }

    /**
     * The play screen's finish: with an acting user, the attempt is saved and
     * the local row takes the points and one more completed quiz; either way
     * the home screen follows.
     */
    method OnQuizFinished(finalScore: int, now: int)
      requires currentScreen == PlayQuizScreen && Valid()
      modifies this, repo, dao
      ensures Valid()
      ensures currentScreen == HomeScreen
      ensures authUid == old(authUid)
      ensures repo.quizzes == old(repo.quizzes) && repo.questions == old(repo.questions)
      ensures var uid := ActingUid(authUid, vault.strings);
        && (uid == "" ==> repo.attempts == old(repo.attempts) && dao.rows == old(dao.rows))
        && (uid != "" ==>
              && dao.rows == WithScore(old(dao.rows), uid, finalScore)
              && repo.attempts == if Repository.ValidDocId(uid) && Repository.ValidDocId(playQuizId)
                                  then old(repo.attempts)[uid := Repository.AttemptsOf(old(repo.attempts), uid)
                                                                   [playQuizId := QuizAttempt(playQuizId, finalScore, now)]]
                                  else old(repo.attempts))
    {
      var uid := ActingUid(authUid, vault.strings);
      if uid != "" {
        var _ := repo.SaveQuizAttempt(uid, playQuizId, finalScore, now);
        dao.UpdateScore(uid, finalScore);
      }
      currentScreen := HomeScreen;
    }
  }

  /**
   * Playing the same quiz twice keeps one attempt, the second, while the local
   * row counts both: the scores add up and the completed count grows by two.
   */
  lemma ReplayKeepsOneAttemptButCountsTwice(attempts: map<string, map<string, QuizAttempt>>,
                                            rows: map<string, UserEntity>, uid: string, quizId: string,
                                            s1: int, t1: int, s2: int, t2: int)
    requires uid in rows
    ensures var once := attempts[uid := Repository.AttemptsOf(attempts, uid)[quizId := QuizAttempt(quizId, s1, t1)]];
      var twice := once[uid := Repository.AttemptsOf(once, uid)[quizId := QuizAttempt(quizId, s2, t2)]];
      && twice == attempts[uid := Repository.AttemptsOf(attempts, uid)[quizId := QuizAttempt(quizId, s2, t2)]]
      && |Repository.AttemptsOf(twice, uid).Keys| == |Repository.AttemptsOf(once, uid).Keys|
    ensures var after := WithScore(WithScore(rows, uid, s1), uid, s2)[uid];
      after.totalScore == rows[uid].totalScore + s1 + s2 && after.quizzesDone == rows[uid].quizzesDone + 2
  {
    var a1, a2 := QuizAttempt(quizId, s1, t1), QuizAttempt(quizId, s2, t2);
    var before := Repository.AttemptsOf(attempts, uid);
    var once := attempts[uid := before[quizId := a1]];
    assert Repository.AttemptsOf(once, uid) == before[quizId := a1];
    assert before[quizId := a1][quizId := a2] == before[quizId := a2];
    assert before[quizId := a1].Keys == before[quizId := a2].Keys;
    ScoreUpdatesAccumulate(rows, uid, s1, s2);
  }

  /** After a logout, a restart opens the login screen unless an account is still signed in. */
  lemma LogoutLeadsToLogin(authUid: Option<string>)
    ensures StartScreen(LoggedIn(map[]), None) == LoginScreen
    ensures StartScreen(LoggedIn(map[]), authUid) == HomeScreen <==> authUid.Some?
  {
  }
}
