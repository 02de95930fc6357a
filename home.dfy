/**
 * The home screen: the signed-in user's header, the open and completed lists
 * of public quizzes, the user's drafts, and the tab row that switches between
 * them. The two remote listeners are modelled as the snapshots they deliver.
 */
module Home {
  import opened Wrappers
  import opened Models
  import opened KotlinStd
  import opened Sequences
  import opened UserStats
  import opened UserPrefs
  import PlayQuiz
  import Repository

  // ------------------------------------------------------------ header row

  /** The name in the header: the local row's, else the saved one, else "Jogador". */
  function HeaderName(row: Option<UserEntity>, prefs: map<string, string>): (name: string)
    ensures row.Some? ==> name == row.value.name
    ensures row.None? ==> name == UserNameOf(prefs)
  {
    match row
    case Some(u) => u.name
    case None => Get(prefs, KeyName).GetOr(DefaultUserName)
  }

  /**
   * The row the launch effect writes: the header's name, score and avatar, the
   * saved email, and zero completed quizzes.
   */
  function LaunchRow(uid: string, row: Option<UserEntity>, prefs: map<string, string>): (u: UserEntity)
    ensures u.uid == uid && u.quizzesDone == 0
    ensures u.email == Get(prefs, KeyEmail).GetOr("")
    ensures row.Some? ==> u.name == row.value.name && u.totalScore == row.value.totalScore && u.avatar == row.value.avatar
    ensures row.None? ==> u.name == UserNameOf(prefs) && u.totalScore == 0 && u.avatar == DefaultAvatar
  {
    var score := if row.Some? then row.value.totalScore else 0;
    var avatar := if row.Some? then row.value.avatar else DefaultAvatar;
    UserEntity(uid, HeaderName(row, prefs), Get(prefs, KeyEmail).GetOr(""), score, 0, avatar)
  }

  /**
   * The launch effect: with a user id, upsert the header's row into the local
   * table. `shown` is the row the screen currently displays, which is the
   * collected value of the local table's flow: `None` on the first composition,
   * before the flow has delivered anything, whatever the table holds.
   */
  method LaunchUpsert(dao: UserDao, prefs: UserPrefsManager, uid: string, shown: Option<UserEntity>)
    requires dao.Valid()
    modifies dao
    ensures dao.Valid()
    ensures uid == "" ==> dao.rows == old(dao.rows)
    ensures uid != "" ==> dao.rows == old(dao.rows)[uid := LaunchRow(uid, shown, prefs.prefs)]
  {
    if uid != "" {
      var name := if shown.Some? then shown.value.name else prefs.GetName().GetOr(DefaultUserName);
      var score := if shown.Some? then shown.value.totalScore else 0;
      var avatar := if shown.Some? then shown.value.avatar else DefaultAvatar;
      dao.InsertUser(UserEntity(uid, name, prefs.GetEmail().GetOr(""), score, 0, avatar));
    }
  }

  /** The keys the launch effect is restarted on: the user id, the header's name and its score. */
  function LaunchKeys(uid: string, shown: Option<UserEntity>, prefs: map<string, string>): (k: (string, string, int))
    ensures k.0 == uid && k.1 == HeaderName(shown, prefs)
    ensures k.2 == if shown.Some? then shown.value.totalScore else 0
  {
    (uid, HeaderName(shown, prefs), if shown.Some? then shown.value.totalScore else 0)
  }

  /**
   * The first run of the launch effect sees no row yet, so it overwrites a
   * stored row with zero points and the default avatar. Once the overwritten
   * row is shown, the keys are those of the first run, so the effect does not
   * run again. The stored row comes back only if the flow shows it before the
   * overwrite lands and its name or score differs from the first run's keys:
   * then the effect runs again and writes its score and avatar back. A stored
   * row with zero points and the saved name gives the first run's keys, so the
   * effect does not run again and the stored avatar is lost either way.
   */
  lemma FirstLaunchOverwritesStoredRow(rows: map<string, UserEntity>, uid: string, prefs: map<string, string>)
    requires uid in rows
    ensures var first := LaunchRow(uid, None, prefs);
      && first.totalScore == 0 && first.avatar == DefaultAvatar && first.quizzesDone == 0
      && (rows[uid].totalScore != 0 ==> first != rows[uid])
      && LaunchKeys(uid, Some(first), prefs) == LaunchKeys(uid, None, prefs)
      && LaunchRow(uid, Some(first), prefs) == first
    ensures LaunchKeys(uid, Some(rows[uid]), prefs) == LaunchKeys(uid, None, prefs)
      <==> rows[uid].totalScore == 0 && rows[uid].name == HeaderName(None, prefs)
    ensures (LaunchKeys(uid, Some(rows[uid]), prefs) == LaunchKeys(uid, None, prefs) && rows[uid].avatar != DefaultAvatar)
      ==> LaunchRow(uid, None, prefs).avatar != rows[uid].avatar
    ensures var again := LaunchRow(uid, Some(rows[uid]), prefs);
      LaunchKeys(uid, Some(rows[uid]), prefs) != LaunchKeys(uid, None, prefs) ==>
        again.totalScore == rows[uid].totalScore && again.avatar == rows[uid].avatar
  {
  }

  /**
   * The launch effect runs again whenever the header's score changes, so right
   * after a finished quiz raises the score it writes the row back with the new
   * score and zero completed quizzes: the local count of completed quizzes does
   * not survive a return to the home screen.
   */
  lemma UpsertAfterScoreUpdateResetsDone(rows: map<string, UserEntity>, uid: string, points: int, prefs: map<string, string>)
    requires uid in rows
    ensures var after := LaunchRow(uid, Lookup(WithScore(rows, uid, points), uid), prefs);
      && after.totalScore == rows[uid].totalScore + points
      && after.quizzesDone == 0
      && after.name == rows[uid].name && after.avatar == rows[uid].avatar
  {
  }

  // ------------------------------------------------------------ quiz lists

  /** The home screen's notion of public: anything that is not a draft. */
  predicate IsPublic(q: Quiz) {
    q.status != Draft
  }

  /**
   * Every quiz the repository lists as active is public here, but not the
   * converse: a quiz without status whose flag is off is public on this screen
   * and absent from the repository's active list.
   */
  lemma PublicIsLooserThanListedAsActive(q: Quiz)
    ensures Repository.ListedAsActive(q) ==> IsPublic(q)
    ensures var w := DefaultQuiz(0).(isActive := false, status := "");
      IsPublic(w) && !Repository.ListedAsActive(w)
  {
  }

  /** One document of the user's `completed_quizzes`, whose score may be missing. */
  datatype CompletedDoc = CompletedDoc(id: string, score: Option<int>)

  /** `getLong("score")?.toInt() ?: 0`. */
  function StoredScore(d: CompletedDoc): (s: int)
    ensures InIntRange(s)
    ensures d.score.None? ==> s == 0
    ensures d.score.Some? && InIntRange(d.score.value) ==> s == d.score.value
  {
    match d.score
    case Some(v) => ToInt(v)
    case None => 0
  }

  /** `associate { id to score }`: one entry per document id, the later document winning. */
  function CompletedMap(docs: seq<CompletedDoc>): (m: map<string, int>)
    ensures forall i :: 0 <= i < |docs| ==> docs[i].id in m
    ensures forall k :: k in m ==> InIntRange(m[k])
  {
    if |docs| == 0 then map[]
    else CompletedMap(docs[..|docs| - 1])[docs[|docs| - 1].id := StoredScore(docs[|docs| - 1])]
  }

  /** The map has no key that is not some document's id. */
  lemma {:induction false} CompletedMapKeys(docs: seq<CompletedDoc>, k: string)
    requires k in CompletedMap(docs)
    ensures exists i :: 0 <= i < |docs| && docs[i].id == k
  {
    var prefix := docs[..|docs| - 1];
    if k != docs[|docs| - 1].id {
      CompletedMapKeys(prefix, k);
      var i :| 0 <= i < |prefix| && prefix[i].id == k;
      assert docs[i].id == k;
    }
  }

  /** A document that no later document shadows gives its own score. */
  lemma {:induction false} CompletedMapLastWins(docs: seq<CompletedDoc>, i: int)
    requires 0 <= i < |docs|
    requires forall j :: i < j < |docs| ==> docs[j].id != docs[i].id
    ensures CompletedMap(docs)[docs[i].id] == StoredScore(docs[i])
  {
    if i < |docs| - 1 {
      var prefix := docs[..|docs| - 1];
      assert prefix[i] == docs[i];
      CompletedMapLastWins(prefix, i);
    }
  }

  function NotCompleted(completed: map<string, int>): Quiz -> bool {
    (q: Quiz) => q.id !in completed
  }

  function WasCompleted(completed: map<string, int>): Quiz -> bool {
    (q: Quiz) => q.id in completed
  }

  /** The key of `sortedByDescending { it.createdAt }`, as an ascending key. */
  function NewestFirst(q: Quiz): int {
    -q.createdAt
  }

  /** The "Abertos" list: public quizzes the user has not completed, newest first. */
  function OpenQuizzes(all: seq<Quiz>, completed: map<string, int>): (r: seq<Quiz>)
    ensures forall i :: 0 <= i < |r| ==> r[i] in all && IsPublic(r[i]) && r[i].id !in completed
    ensures forall q :: q in all && IsPublic(q) && q.id !in completed ==> q in r
    ensures forall i, j :: 0 <= i < j < |r| ==> r[i].createdAt >= r[j].createdAt
  {
    var kept := Filter(Filter(all, IsPublic), NotCompleted(completed));
    var r := SortBy(kept, NewestFirst);
    SortBySorted(kept, NewestFirst);
    SameMultisetSameMembers(r, kept);
    r
  }

  /** A completed quiz with the user's score on it. */
  datatype CompletedQuiz = CompletedQuiz(quiz: Quiz, score: int)

  function CompletedNewestFirst(c: CompletedQuiz): int {
    -c.quiz.createdAt
  }

  function WithScores(qs: seq<Quiz>, completed: map<string, int>): (r: seq<CompletedQuiz>)
    ensures |r| == |qs|
    ensures forall i :: 0 <= i < |qs| ==> r[i].quiz == qs[i]
    ensures forall i :: 0 <= i < |qs| && qs[i].id in completed ==> r[i].score == completed[qs[i].id]
  {
    seq(|qs|, i requires 0 <= i < |qs| => CompletedQuiz(qs[i], if qs[i].id in completed then completed[qs[i].id] else 0))
  }

  /** Each tagged entry carries a quiz of the list and, for a completed quiz, its score. */
  lemma WithScoresMembers(qs: seq<Quiz>, completed: map<string, int>)
    ensures forall c :: c in WithScores(qs, completed) ==>
      c.quiz in qs && (c.quiz.id in completed ==> c.score == completed[c.quiz.id])
    ensures forall q :: q in qs && q.id in completed ==> CompletedQuiz(q, completed[q.id]) in WithScores(qs, completed)
  {
    var tagged := WithScores(qs, completed);
    forall c | c in tagged ensures c.quiz in qs && (c.quiz.id in completed ==> c.score == completed[c.quiz.id]) {
      var i :| 0 <= i < |tagged| && tagged[i] == c;
    }
    forall q | q in qs && q.id in completed ensures CompletedQuiz(q, completed[q.id]) in tagged {
      var i :| 0 <= i < |qs| && qs[i] == q;
      assert tagged[i] == CompletedQuiz(q, completed[q.id]);
    }
  }

  /** The "Concluídos" list: public quizzes the user completed, each with its score, newest first. */
  function CompletedQuizzes(all: seq<Quiz>, completed: map<string, int>): (r: seq<CompletedQuiz>)
    ensures |r| == |Filter(Filter(all, IsPublic), WasCompleted(completed))|
    ensures forall i :: 0 <= i < |r| ==>
      && r[i].quiz in all && IsPublic(r[i].quiz) && r[i].quiz.id in completed
      && r[i].score == completed[r[i].quiz.id]
    ensures forall q :: q in all && IsPublic(q) && q.id in completed ==> CompletedQuiz(q, completed[q.id]) in r
    ensures forall i, j :: 0 <= i < j < |r| ==> r[i].quiz.createdAt >= r[j].quiz.createdAt
  {
    var pub := Filter(all, IsPublic);
    var kept := Filter(pub, WasCompleted(completed));
    FilterMembers(all, IsPublic);
    FilterMembers(pub, WasCompleted(completed));
    var tagged := WithScores(kept, completed);
    WithScoresMembers(kept, completed);
    var r := SortBy(tagged, CompletedNewestFirst);
    SortBySorted(tagged, CompletedNewestFirst);
    SameMultisetSameMembers(r, tagged);
    assert |r| == |multiset(r)| == |multiset(tagged)| == |tagged|;
    r
  }

  /**
   * Every public quiz lands in exactly one of the two lists, the one its
   * completion decides; together the lists are as long as the public quizzes.
   */
  lemma OpenAndCompletedPartitionPublic(all: seq<Quiz>, completed: map<string, int>)
    ensures |OpenQuizzes(all, completed)| + |CompletedQuizzes(all, completed)| == |Filter(all, IsPublic)|
    ensures forall q :: q in all && IsPublic(q) ==>
      (q in OpenQuizzes(all, completed) <==> q.id !in completed)
    ensures forall i :: 0 <= i < |CompletedQuizzes(all, completed)| ==>
      CompletedQuizzes(all, completed)[i].quiz !in OpenQuizzes(all, completed)
  {
    var pub := Filter(all, IsPublic);
    FilterSplit(pub, NotCompleted(completed), WasCompleted(completed));
    var open := Filter(pub, NotCompleted(completed));
    assert |OpenQuizzes(all, completed)| == |multiset(OpenQuizzes(all, completed))| == |multiset(open)| == |open|;
  }

  // ------------------------------------------------------- completed rows

  /** "Acertos": the score divided by ten, with `Int` division. */
  function Hits(score: int): (h: int)
    ensures score >= 0 ==> h >= 0 && 0 <= score - PlayQuiz.PointsPerCorrect * h < PlayQuiz.PointsPerCorrect
  {
    TruncDiv(score, 10)
  }

  /** "Erros": the quiz's question count minus the hits. */
  function Misses(questionCount: int, score: int): int {
    questionCount - Hits(score)
  }

  /**
   * A played score of ten points per correct page gives back the number of
   * correct pages as hits.
   */
  lemma HitsOfPlayedScore(correct: nat)
    ensures Hits(PlayQuiz.PointsPerCorrect * correct) == correct
  {
  }

  /**
   * Hits and misses add up to the question count, and the misses go negative
   * exactly when the score is beyond what the question count allows.
   */
  lemma HitsAndMisses(questionCount: int, score: int)
    requires score >= 0
    ensures Hits(score) + Misses(questionCount, score) == questionCount
    ensures Misses(questionCount, score) < 0 <==> score >= PlayQuiz.PointsPerCorrect * (questionCount + 1)
  {
  }

  // ---------------------------------------------------------------- drafts

  function DraftOf(uid: string): Quiz -> bool {
    (q: Quiz) => Repository.IsDraftOf(q, uid)
  }

  /** The drafts listener's list: the user's drafts, newest first. */
  function Drafts(all: seq<Quiz>, uid: string): (r: seq<Quiz>)
    ensures forall i :: 0 <= i < |r| ==> r[i] in all && r[i].status == Draft && r[i].authorId == uid
    ensures forall q :: q in all && Repository.IsDraftOf(q, uid) ==> q in r
    ensures forall i, j :: 0 <= i < j < |r| ==> r[i].createdAt >= r[j].createdAt
  {
    var kept := Filter(all, DraftOf(uid));
    var r := SortBy(kept, NewestFirst);
    SortBySorted(kept, NewestFirst);
    SameMultisetSameMembers(r, kept);
    r
  }

  /** A quiz never shows both as a draft and in the open or completed lists. */
  lemma DraftsAreNeverListedPublic(all: seq<Quiz>, completed: map<string, int>, uid: string)
    ensures forall q :: q in Drafts(all, uid) ==> q !in OpenQuizzes(all, completed)
    ensures forall i :: 0 <= i < |CompletedQuizzes(all, completed)| ==>
      CompletedQuizzes(all, completed)[i].quiz !in Drafts(all, uid)
  {
    var drafts := Drafts(all, uid);
    forall q | q in drafts ensures !IsPublic(q) {
      var i :| 0 <= i < |drafts| && drafts[i] == q;
    }
  }

  // ------------------------------------------------------------------ tabs

  const TabOpen: string := "Abertos"
  const TabCompleted: string := "Concluídos"
  const TabDrafts: string := "Rascunhos"

  /** The tab titles: the drafts tab only when there are drafts. */
  function Tabs(hasDrafts: bool): (t: seq<string>)
    ensures |t| == if hasDrafts then 3 else 2
    ensures t[0] == TabOpen && t[1] == TabCompleted
    ensures hasDrafts ==> t[2] == TabDrafts
  {
    if hasDrafts then [TabOpen, TabCompleted, TabDrafts] else [TabOpen, TabCompleted]
  }

  /** `tabs.getOrNull(selectedTabIndex) ?: "Abertos"`. */
  function CurrentTabTitle(tabs: seq<string>, selected: int): string {
    if 0 <= selected < |tabs| then tabs[selected] else TabOpen
  }

  /** The list on screen is always one of the tabs, and the drafts list only while there are drafts. */
  lemma CurrentTabIsShown(hasDrafts: bool, selected: int)
    ensures var title := CurrentTabTitle(Tabs(hasDrafts), selected);
      && (title == TabOpen || title == TabCompleted || title == TabDrafts)
      && (title == TabDrafts ==> hasDrafts)
      && (selected <= 0 || selected >= |Tabs(hasDrafts)| ==> title == TabOpen)
  {
  }

  /**
   * The screen's own state. With an empty user id no listener is registered,
   * so the lists stay empty and the screen keeps loading.
   */
  class HomeScreenState {
    var quizzesAbertos: seq<Quiz>
    var quizzesConcluidos: seq<CompletedQuiz>
    var meusRascunhos: seq<Quiz>
    var isLoading: bool
    var selectedTabIndex: int
    var quizToDelete: Option<Quiz>

    /**
     * The selected tab exists. The composition restores this with `ClampTab`
     * before drawing; a drafts snapshot that removes the selected drafts tab
     * breaks it until then.
     */
    ghost predicate Valid()
      reads this
    {
      0 <= selectedTabIndex < |Tabs(|meusRascunhos| > 0)|
    }

    constructor ()
      ensures Valid()
      ensures quizzesAbertos == [] && quizzesConcluidos == [] && meusRascunhos == []
      ensures isLoading && selectedTabIndex == 0 && quizToDelete.None?
    {
      quizzesAbertos := [];
      quizzesConcluidos := [];
      meusRascunhos := [];
      isLoading := true;
      selectedTabIndex := 0;
      quizToDelete := None;
    }

    function CurrentTab(): string
      reads this
    {
      CurrentTabTitle(Tabs(|meusRascunhos| > 0), selectedTabIndex)
    }

    /** Both snapshots of the quiz listener arrived; a missing snapshot reads as empty. */
    method OnQuizzesSnapshot(quizSnapshot: Option<seq<Quiz>>, completedSnapshot: Option<seq<CompletedDoc>>)
      modifies this
      ensures var completed := CompletedMap(completedSnapshot.GetOr([]));
        && quizzesAbertos == OpenQuizzes(quizSnapshot.GetOr([]), completed)
        && quizzesConcluidos == CompletedQuizzes(quizSnapshot.GetOr([]), completed)
      ensures !isLoading
      ensures meusRascunhos == old(meusRascunhos) && selectedTabIndex == old(selectedTabIndex)
      ensures quizToDelete == old(quizToDelete)
    {
      var completed := CompletedMap(completedSnapshot.GetOr([]));
      var all := quizSnapshot.GetOr([]);
      quizzesAbertos := OpenQuizzes(all, completed);
      quizzesConcluidos := CompletedQuizzes(all, completed);
      isLoading := false;
    }

    /** The drafts listener delivered; the next composition clamps the tab. */
    method OnDraftsSnapshot(snapshot: Option<seq<Quiz>>, uid: string)
      modifies this
      ensures meusRascunhos == Drafts(snapshot.GetOr([]), uid)
      ensures quizzesAbertos == old(quizzesAbertos) && quizzesConcluidos == old(quizzesConcluidos)
      ensures isLoading == old(isLoading) && quizToDelete == old(quizToDelete)
      ensures selectedTabIndex == old(selectedTabIndex)
      ensures old(Valid()) && (meusRascunhos != [] || selectedTabIndex < 2) ==> Valid()
    {
      meusRascunhos := Drafts(snapshot.GetOr([]), uid);
    }

    /**
     * The composition's clamp: an index past the last tab moves to the last
     * tab, which restores `Valid` after the drafts tab disappears.
     */
    method ClampTab()
      requires selectedTabIndex >= 0
      modifies this
      ensures Valid()
      ensures var n := |Tabs(|meusRascunhos| > 0)|;
        selectedTabIndex == if old(selectedTabIndex) >= n then n - 1 else old(selectedTabIndex)
      ensures old(selectedTabIndex) < |Tabs(|meusRascunhos| > 0)| ==> CurrentTab() == old(CurrentTab())
      ensures quizzesAbertos == old(quizzesAbertos) && quizzesConcluidos == old(quizzesConcluidos)
      ensures meusRascunhos == old(meusRascunhos) && isLoading == old(isLoading) && quizToDelete == old(quizToDelete)
    {
      var tabs := Tabs(|meusRascunhos| > 0);
      if selectedTabIndex >= |tabs| {
        selectedTabIndex := |tabs| - 1;
      }
    }

    /** A tap on a tab. */
    method SelectTab(index: int)
      requires 0 <= index < |Tabs(|meusRascunhos| > 0)|
      modifies this
      ensures Valid()
      ensures selectedTabIndex == index && CurrentTab() == Tabs(|meusRascunhos| > 0)[index]
      ensures quizzesAbertos == old(quizzesAbertos) && quizzesConcluidos == old(quizzesConcluidos)
      ensures meusRascunhos == old(meusRascunhos) && isLoading == old(isLoading) && quizToDelete == old(quizToDelete)
    {
      selectedTabIndex := index;
    }

    /** The trash icon of a draft opens the confirmation. */
    method AskDelete(q: Quiz)
      modifies this
      ensures quizToDelete == Some(q)
      ensures quizzesAbertos == old(quizzesAbertos) && quizzesConcluidos == old(quizzesConcluidos)
      ensures meusRascunhos == old(meusRascunhos) && isLoading == old(isLoading)
      ensures selectedTabIndex == old(selectedTabIndex)
    {
      quizToDelete := Some(q);
    }

    /** "Cancelar" or a dismissal closes the confirmation without deleting. */
    method CancelDelete()
      modifies this
      ensures quizToDelete.None?
      ensures quizzesAbertos == old(quizzesAbertos) && quizzesConcluidos == old(quizzesConcluidos)
      ensures meusRascunhos == old(meusRascunhos) && isLoading == old(isLoading)
      ensures selectedTabIndex == old(selectedTabIndex)
    {
      quizToDelete := None;
    }

    /** "Excluir": deletes the quiz through the repository, then closes the confirmation. */
    method ConfirmDelete(repo: Repository.QuizRepository, oldQuestions: Repository.Connectivity)
      requires quizToDelete.Some? && repo.Valid()
      modifies this, repo
      ensures repo.Valid()
      ensures var id := old(quizToDelete).value.id;
        && (Repository.ValidDocId(id) ==> repo.quizzes == old(repo.quizzes) - {id})
        && (Repository.ValidDocId(id) ==> repo.questions == Repository.RemoveQuestionsOf(old(repo.questions), id, oldQuestions))
        && (!Repository.ValidDocId(id) ==> repo.quizzes == old(repo.quizzes) && repo.questions == old(repo.questions))
      ensures repo.attempts == old(repo.attempts)
      ensures quizToDelete.None?
      ensures quizzesAbertos == old(quizzesAbertos) && quizzesConcluidos == old(quizzesConcluidos)
      ensures meusRascunhos == old(meusRascunhos) && isLoading == old(isLoading)
      ensures selectedTabIndex == old(selectedTabIndex)
    {
      var _ := repo.DeleteQuiz(quizToDelete.value.id, oldQuestions);
      quizToDelete := None;
    }
  }

  /** The rocket icon of a draft publishes it through the repository. */
  method ReleaseDraft(repo: Repository.QuizRepository, draft: Quiz)
    requires repo.Valid()
    modifies repo
    ensures repo.Valid()
    ensures repo.quizzes == if Repository.ValidDocId(draft.id) && draft.id in old(repo.quizzes)
      then old(repo.quizzes)[draft.id := Repository.Released(old(repo.quizzes)[draft.id])]
      else old(repo.quizzes)
    ensures Repository.ValidDocId(draft.id) && draft.id in old(repo.quizzes) ==>
      && draft.id in repo.quizzes
      && repo.quizzes[draft.id] == Repository.Released(old(repo.quizzes)[draft.id])
      && Repository.ListedAsActive(repo.quizzes[draft.id]) && IsPublic(repo.quizzes[draft.id])
    ensures repo.questions == old(repo.questions) && repo.attempts == old(repo.attempts)
  {
    var _ := repo.ReleaseQuiz(draft.id);
  }
}
