/**
 * The remote quiz store and the repository that reads and writes it.
 *
 * The three collections the repository touches are maps held by the class:
 * quizzes by id, questions by id, and each user's completed attempts by user id
 * and then quiz id. Writes are applied to the store as the local cache applies
 * them (the calls are not awaited). Every read asks the server, then the device
 * cache, then gives up; which tier answered, and with which documents, is the
 * `Fetched` value the pure readers take. The same two-tier read done inside
 * `publishQuiz` and `deleteQuiz` is the `Connectivity` argument of those methods.
 * Fresh document ids and the clock are arguments too.
 */
module Repository {
  import opened Wrappers
  import opened Models
  import opened QuestionForm
  import opened Sequences

  /**
   * `document(id)` accepts a single non-empty path segment; anything else throws
   * before a write is issued.
   */
  predicate ValidDocId(id: string) {
    |id| > 0 && '/' !in id
  }

  function QuizKey(q: Quiz): string { q.id }
  function QuestionKey(q: Question): string { q.id }
  function AttemptKey(a: QuizAttempt): string { a.quizId }
  function OrderIndex(q: Question): int { q.orderIndex }

  /** `docs` is a listing of the collection `m`: each document once, as stored. */
  ghost predicate Lists<T>(docs: seq<T>, m: map<string, T>, key: T -> string) {
    && (forall i :: 0 <= i < |docs| ==> key(docs[i]) in m && m[key(docs[i])] == docs[i])
    && (forall k :: k in m ==> exists i :: 0 <= i < |docs| && key(docs[i]) == k)
    && DistinctBy(docs, key)
  }

  /** The documents a read produced; nothing when both tiers failed. */
  function Docs<T>(f: Fetched<seq<T>>): seq<T> {
    if f.Unreachable? then [] else f.docs
  }

  // ---------------------------------------------------------------- reads

  /** The listing rule of published quizzes; a quiz without status falls back on its flag. */
  predicate ListedAsActive(q: Quiz) {
    q.status == Active || (q.status == "" && q.isActive)
  }

  /** The listing rule of one author's drafts. */
  predicate IsDraftOf(q: Quiz, userId: string) {
    q.status == Draft && q.authorId == userId
  }

  /** `getActiveQuizzes`. */
  function GetActiveQuizzes(f: Fetched<seq<Quiz>>): (r: seq<Quiz>)
    ensures f.Unreachable? ==> r == []
    ensures forall i :: 0 <= i < |r| ==> r[i] in Docs(f) && ListedAsActive(r[i]) && r[i].status != Draft
    ensures forall i :: 0 <= i < |Docs(f)| && ListedAsActive(Docs(f)[i]) ==> Docs(f)[i] in r
  {
    Filter(Docs(f), ListedAsActive)
  }

  /** `getMyDrafts(userId)`. */
  function GetMyDrafts(userId: string, f: Fetched<seq<Quiz>>): (r: seq<Quiz>)
    ensures f.Unreachable? ==> r == []
    ensures forall i :: 0 <= i < |r| ==> r[i] in Docs(f) && r[i].status == Draft && r[i].authorId == userId
    ensures forall i :: 0 <= i < |r| ==> !ListedAsActive(r[i])
    ensures forall i :: 0 <= i < |Docs(f)| && IsDraftOf(Docs(f)[i], userId) ==> Docs(f)[i] in r
  {
    Filter(Docs(f), q => IsDraftOf(q, userId))
  }

  /** The `whereEqualTo("quizId", quizId)` condition. */
  function OfQuiz(quizId: string): Question -> bool {
    (q: Question) => q.quizId == quizId
  }

  /** The documents of one quiz, in listing order. */
  function QuestionsOf(docs: seq<Question>, quizId: string): seq<Question> {
    Filter(docs, OfQuiz(quizId))
  }

  /** `getQuestionsByQuizId(quizId)`: the quiz's questions ordered by `orderIndex`. */
  function GetQuestionsByQuizId(quizId: string, f: Fetched<seq<Question>>): (r: seq<Question>)
    ensures f.Unreachable? ==> r == []
    ensures SortedBy(r, OrderIndex)
    ensures multiset(r) == multiset(QuestionsOf(Docs(f), quizId))
    ensures forall i :: 0 <= i < |r| ==> r[i] in Docs(f) && r[i].quizId == quizId
    ensures forall i :: 0 <= i < |Docs(f)| && Docs(f)[i].quizId == quizId ==> Docs(f)[i] in r
  {
    var own := QuestionsOf(Docs(f), quizId);
    SortBySorted(own, OrderIndex);
    SameMultisetSameMembers(SortBy(own, OrderIndex), own);
    SortBy(own, OrderIndex)
  }

  /**
   * `getUserCompletedQuizzes(uid)`. The user id chooses the sub-collection that
   * was read; here the read itself is the argument.
   */
  function GetUserCompletedQuizzes(f: Fetched<seq<QuizAttempt>>): (r: seq<QuizAttempt>)
    ensures f.Unreachable? ==> r == []
    ensures !f.Unreachable? ==> r == f.docs
  {
    Docs(f)
  }

  // ------------------------------------------------------- what writes do

  /** How the internal "old questions" read of an edit or a delete turned out. */
  datatype Connectivity =
    | Online                                   // the server answered: the store itself
    | CachedOnly(snapshot: map<string, Question>) // the server failed; the cache answered with this
    | NoData                                   // both failed: the exception leaves the method

  /** The envelope written by `publishQuiz`. */
  function QuizRecord(quizId: string, title: string, authorId: string, authorName: string,
                      questionCount: int, status: string, createdAt: int): Quiz
  {
    Quiz(quizId, title, authorId, authorName, questionCount, status == Active, createdAt, status)
  }

  /**
   * The creation time after a merge write: a new quiz is stamped with the clock;
   * an edit keeps the stored stamp. An edit of a missing document writes no
   * stamp at all; the model stores the publish time `now` for it, whereas the
   * app fills the missing field with the clock each time it reads the document,
   * so that quiz's place in the newest-first order can change from read to read.
   */
  function CreatedAtAfterPublish(quizzes: map<string, Quiz>, quizId: string, isEdit: bool, now: int): int {
    if isEdit && quizId in quizzes then quizzes[quizId].createdAt else now
  }

  /** The ids of the documents of one quiz in a question collection. */
  function StaleQuestionIds(qs: map<string, Question>, quizId: string): (r: set<string>)
    ensures forall k :: k in r <==> k in qs && qs[k].quizId == quizId
  {
    set k | k in qs && qs[k].quizId == quizId
  }

  /** The question collection once the documents the internal read returned are deleted. */
  function RemoveQuestionsOf(qs: map<string, Question>, quizId: string, read: Connectivity): map<string, Question> {
    match read
    case Online => qs - StaleQuestionIds(qs, quizId)
    case CachedOnly(c) => qs - StaleQuestionIds(c, quizId)
    case NoData => qs
  }

  /** The question written for the form at position `index`. */
  function MakeQuestion(id: string, quizId: string, v: FormValues, index: int): Question {
    Question(id, quizId, v.text, v.options, v.correctAnswerIndex, index)
  }

  /** The first `n` questions written by `publishQuiz`. */
  function Batch(quizId: string, ids: seq<string>, vals: seq<FormValues>, n: nat): map<string, Question>
    requires n <= |ids| && n <= |vals|
  {
    if n == 0 then map[]
    else Batch(quizId, ids, vals, n - 1)[ids[n - 1] := MakeQuestion(ids[n - 1], quizId, vals[n - 1], n - 1)]
  }

  /** The written questions as the list they were written from. */
  function BatchList(quizId: string, ids: seq<string>, vals: seq<FormValues>): (r: seq<Question>)
    requires |ids| == |vals|
    ensures |r| == |ids|
    ensures forall i :: 0 <= i < |r| ==>
      && r[i].quizId == quizId && r[i].orderIndex == i && r[i].id == ids[i]
      && r[i].text == vals[i].text && r[i].options == vals[i].options
      && r[i].correctAnswerIndex == vals[i].correctAnswerIndex
  {
    seq(|ids|, i requires 0 <= i < |ids| => MakeQuestion(ids[i], quizId, vals[i], i))
  }

  /** The question collection after `publishQuiz`. */
  function QuestionsAfterPublish(qs: map<string, Question>, quizId: string, isEdit: bool, read: Connectivity,
                                 ids: seq<string>, vals: seq<FormValues>): map<string, Question>
    requires |ids| == |vals|
  {
    if !isEdit then qs + Batch(quizId, ids, vals, |ids|)
    else if read.NoData? then qs
    else RemoveQuestionsOf(qs, quizId, read) + Batch(quizId, ids, vals, |ids|)
  }

  /** `q` is the question written at its own order index. */
  ghost predicate InBatch(q: Question, quizId: string, ids: seq<string>, vals: seq<FormValues>, n: nat)
    requires n <= |ids| && n <= |vals|
  {
    0 <= q.orderIndex < n && q == MakeQuestion(ids[q.orderIndex], quizId, vals[q.orderIndex], q.orderIndex)
  }

  /** The state of the toggled quiz after `releaseQuiz`. */
  function Released(q: Quiz): Quiz {
    q.(status := Active, isActive := true)
  }

  /** One user's completed-quizzes sub-collection; missing means empty. */
  function AttemptsOf(attempts: map<string, map<string, QuizAttempt>>, uid: string): map<string, QuizAttempt> {
    if uid in attempts then attempts[uid] else map[]
  }

  // ----------------------------------------------------------------- store

  class QuizRepository {
    var quizzes: map<string, Quiz>
    var questions: map<string, Question>
    var attempts: map<string, map<string, QuizAttempt>>

    /** Every document is filed under its own id. */
    ghost predicate Valid()
      reads this
    {
      && (forall k :: k in quizzes ==> quizzes[k].id == k)
      && (forall k :: k in questions ==> questions[k].id == k)
      && (forall u, k :: u in attempts && k in attempts[u] ==> attempts[u][k].quizId == k)
    }

    constructor ()
      ensures Valid()
      ensures quizzes == map[] && questions == map[] && attempts == map[]
    {
      quizzes := map[];
      questions := map[];
      attempts := map[];
    }

    /**
     * `publishQuiz`. A new quiz takes `newQuizId`; an edit keeps its id. The quiz
     * record is merged first; an edit then deletes whatever the internal read
     * returned as the quiz's questions; then one question per form state is
     * written with its position as `orderIndex`. Every outcome reports success.
     */
    method PublishQuiz(quizIdToUpdate: Option<string>, title: string, authorId: string, authorName: string,
                       questionsStates: seq<QuestionFormState>, status: string,
                       newQuizId: string, newQuestionIds: seq<string>, now: int, oldQuestions: Connectivity)
      returns (success: bool)
      requires Valid()
      requires ValidDocId(newQuizId) && newQuizId !in quizzes
      requires forall k :: k in questions ==> questions[k].quizId != newQuizId
      requires |newQuestionIds| == |questionsStates|
      requires forall i :: 0 <= i < |newQuestionIds| ==> ValidDocId(newQuestionIds[i]) && newQuestionIds[i] !in questions
      requires forall i, j :: 0 <= i < j < |newQuestionIds| ==> newQuestionIds[i] != newQuestionIds[j]
      modifies this
      ensures success
      ensures Valid()
      ensures attempts == old(attempts)
      ensures var quizId := if quizIdToUpdate.Some? then quizIdToUpdate.value else newQuizId;
        if !ValidDocId(quizId) then
          quizzes == old(quizzes) && questions == old(questions)
        else
          && quizzes == old(quizzes)[quizId := QuizRecord(quizId, title, authorId, authorName, |questionsStates|, status,
                                                           CreatedAtAfterPublish(old(quizzes), quizId, quizIdToUpdate.Some?, now))]
          && questions == QuestionsAfterPublish(old(questions), quizId, quizIdToUpdate.Some?, oldQuestions,
                                                newQuestionIds, Snapshot(questionsStates))
    {
      var quizId := if quizIdToUpdate.Some? then quizIdToUpdate.value else newQuizId;
      if !ValidDocId(quizId) {
        return true;
      }
      var createdAt := CreatedAtAfterPublish(quizzes, quizId, quizIdToUpdate.Some?, now);
      quizzes := quizzes[quizId := QuizRecord(quizId, title, authorId, authorName, |questionsStates|, status, createdAt)];

      if quizIdToUpdate.Some? {
        var stale: set<string>;
        match oldQuestions {
          case Online => stale := StaleQuestionIds(questions, quizId);
          case CachedOnly(c) => stale := StaleQuestionIds(c, quizId);
          case NoData => return true;
        }
        DeleteQuestions(stale);
      }

      WriteQuestions(quizId, newQuestionIds, questionsStates);
      return true;
    }

    /** The question loop of `publishQuiz`: one new document per form state, at its position. */
    method WriteQuestions(quizId: string, ids: seq<string>, states: seq<QuestionFormState>)
      requires Valid()
      requires |ids| == |states|
      requires forall i, j :: 0 <= i < j < |ids| ==> ids[i] != ids[j]
      modifies this
      ensures Valid()
      ensures questions == old(questions) + Batch(quizId, ids, Snapshot(states), |ids|)
      ensures quizzes == old(quizzes) && attempts == old(attempts)
    {
      var vals := Snapshot(states);
      for i := 0 to |states|
        invariant questions == old(questions) + Batch(quizId, ids, vals, i)
        invariant quizzes == old(quizzes) && attempts == old(attempts)
      {
        var state := states[i];
        var question := Question(ids[i], quizId, state.questionText, state.options, state.correctAnswerIndex, i);
        assert question == MakeQuestion(ids[i], quizId, vals[i], i);
        questions := questions[ids[i] := question];
      }
      BatchIdsAreKeys(quizId, ids, vals, |ids|);
    }

    /** Deletes each listed question document, one at a time; absent ones are ignored. */
    method DeleteQuestions(stale: set<string>)
      requires Valid()
      modifies this
      ensures Valid()
      ensures questions == old(questions) - stale
      ensures quizzes == old(quizzes) && attempts == old(attempts)
    {
      var pending := stale;
      while pending != {}
        invariant pending <= stale
        invariant Valid()
        invariant questions == old(questions) - (stale - pending)
        invariant quizzes == old(quizzes) && attempts == old(attempts)
        decreases pending
      {
        var k :| k in pending;
        questions := questions - {k};
        pending := pending - {k};
      }
    }

    /** `releaseQuiz(quizId)`: an update, which does nothing to a missing document. */
    method ReleaseQuiz(quizId: string) returns (success: bool)
      requires Valid()
      modifies this
      ensures success
      ensures Valid()
      ensures quizzes == if ValidDocId(quizId) && quizId in old(quizzes)
                         then old(quizzes)[quizId := Released(old(quizzes)[quizId])]
                         else old(quizzes)
      ensures questions == old(questions) && attempts == old(attempts)
    {
      if ValidDocId(quizId) && quizId in quizzes {
        quizzes := quizzes[quizId := Released(quizzes[quizId])];
      }
      return true;
    }

    /**
     * `saveQuizAttempt(uid, quizId, score)`: overwrites the user's document for
     * that quiz, so a user has at most one attempt per quiz.
     */
    method SaveQuizAttempt(uid: string, quizId: string, score: int, now: int) returns (success: bool)
      requires Valid()
      modifies this
      ensures success
      ensures Valid()
      ensures attempts == if ValidDocId(uid) && ValidDocId(quizId)
                          then old(attempts)[uid := AttemptsOf(old(attempts), uid)[quizId := QuizAttempt(quizId, score, now)]]
                          else old(attempts)
      ensures quizzes == old(quizzes) && questions == old(questions)
    {
      if ValidDocId(uid) && ValidDocId(quizId) {
        attempts := attempts[uid := AttemptsOf(attempts, uid)[quizId := QuizAttempt(quizId, score, now)]];
      }
      return true;
    }

    /**
     * `deleteQuiz(quizId)`: deletes the quiz, then whatever the internal read
     * returned as its questions; when that read fails the questions stay.
     */
    method DeleteQuiz(quizId: string, oldQuestions: Connectivity) returns (success: bool)
      requires Valid()
      modifies this
      ensures success
      ensures Valid()
      ensures ValidDocId(quizId) ==> quizzes == old(quizzes) - {quizId}
      ensures ValidDocId(quizId) ==> questions == RemoveQuestionsOf(old(questions), quizId, oldQuestions)
      ensures !ValidDocId(quizId) ==> quizzes == old(quizzes) && questions == old(questions)
      ensures attempts == old(attempts)
    {
      if !ValidDocId(quizId) {
        return true;
      }
      quizzes := quizzes - {quizId};
      var stale: set<string>;
      match oldQuestions {
        case Online => stale := StaleQuestionIds(questions, quizId);
        case CachedOnly(c) => stale := StaleQuestionIds(c, quizId);
        case NoData => return true;
      }
      DeleteQuestions(stale);
      return true;
    }
  }

  // ---------------------------------------------------------------- lemmas

  /** Each written question is filed under its own id. */
  lemma {:induction false} BatchIdsAreKeys(quizId: string, ids: seq<string>, vals: seq<FormValues>, n: nat)
    requires n <= |ids| && n <= |vals|
    ensures forall k :: k in Batch(quizId, ids, vals, n) ==> Batch(quizId, ids, vals, n)[k].id == k
  {
    if n > 0 {
      BatchIdsAreKeys(quizId, ids, vals, n - 1);
    }
  }

  /** The batch holds one question per id, the i-th written at order index i. */
  lemma {:induction false} BatchShape(quizId: string, ids: seq<string>, vals: seq<FormValues>, n: nat)
    requires n <= |ids| && n <= |vals|
    requires forall i, j :: 0 <= i < j < n ==> ids[i] != ids[j]
    ensures |Batch(quizId, ids, vals, n)| == n
    ensures forall i :: 0 <= i < n ==>
      && ids[i] in Batch(quizId, ids, vals, n)
      && Batch(quizId, ids, vals, n)[ids[i]] == MakeQuestion(ids[i], quizId, vals[i], i)
    ensures forall k :: k in Batch(quizId, ids, vals, n) ==>
      Batch(quizId, ids, vals, n)[k].id == k && InBatch(Batch(quizId, ids, vals, n)[k], quizId, ids, vals, n)
  {
    if n > 0 {
      BatchShape(quizId, ids, vals, n - 1);
      var prev := Batch(quizId, ids, vals, n - 1);
      assert ids[n - 1] !in prev by {
        forall k | k in prev ensures k != ids[n - 1] {
          assert InBatch(prev[k], quizId, ids, vals, n - 1);
          assert k == ids[prev[k].orderIndex];
        }
      }
    }
  }

  /**
   * After a publish whose stale questions were all found, every stored question
   * of the quiz is one of the new ones.
   */
  lemma OwnQuestionsAreBatch(qs: map<string, Question>, quizId: string, isEdit: bool,
                             ids: seq<string>, vals: seq<FormValues>)
    requires |ids| == |vals|
    requires forall i, j :: 0 <= i < j < |ids| ==> ids[i] != ids[j]
    requires isEdit || forall k :: k in qs ==> qs[k].quizId != quizId
    ensures var after := QuestionsAfterPublish(qs, quizId, isEdit, Online, ids, vals);
      && (forall k :: k in after && after[k].quizId == quizId ==> InBatch(after[k], quizId, ids, vals, |ids|))
      && (forall i :: 0 <= i < |ids| ==> ids[i] in after && after[ids[i]] == MakeQuestion(ids[i], quizId, vals[i], i))
  {
    BatchShape(quizId, ids, vals, |ids|);
  }

  /** In a listing, each document of the quiz is one of the batch's questions. */
  lemma ListedOwnAreBatch(after: map<string, Question>, quizId: string, ids: seq<string>, vals: seq<FormValues>,
                          docs: seq<Question>)
    requires |ids| == |vals|
    requires forall k :: k in after && after[k].quizId == quizId ==> InBatch(after[k], quizId, ids, vals, |ids|)
    requires Lists(docs, after, QuestionKey)
    ensures forall i :: 0 <= i < |QuestionsOf(docs, quizId)| ==> InBatch(QuestionsOf(docs, quizId)[i], quizId, ids, vals, |ids|)
  {
    var own := QuestionsOf(docs, quizId);
    forall i | 0 <= i < |own| ensures InBatch(own[i], quizId, ids, vals, |ids|) {
      var y := own[i];
      assert y in docs && y.quizId == quizId;
      var p :| 0 <= p < |docs| && docs[p] == y;
      assert after[QuestionKey(docs[p])] == y;
    }
  }

  /** Batch questions with distinct ids have distinct order indexes. */
  lemma BatchOrderIndexesDistinct(own: seq<Question>, quizId: string, ids: seq<string>, vals: seq<FormValues>)
    requires |ids| == |vals|
    requires forall i :: 0 <= i < |own| ==> InBatch(own[i], quizId, ids, vals, |ids|)
    requires DistinctBy(own, QuestionKey)
    ensures forall i, j :: 0 <= i < j < |own| ==> OrderIndex(own[i]) != OrderIndex(own[j])
  {
    forall i, j | 0 <= i < j < |own| ensures OrderIndex(own[i]) != OrderIndex(own[j]) {
      assert QuestionKey(own[i]) != QuestionKey(own[j]);
    }
  }

  /** Every batch question is listed among the quiz's documents. */
  lemma ListedCoversBatch(after: map<string, Question>, quizId: string, ids: seq<string>, vals: seq<FormValues>,
                          docs: seq<Question>, r: seq<Question>)
    requires |ids| == |vals|
    requires forall i :: 0 <= i < |ids| ==> ids[i] in after && after[ids[i]] == MakeQuestion(ids[i], quizId, vals[i], i)
    requires Lists(docs, after, QuestionKey)
    requires multiset(r) == multiset(QuestionsOf(docs, quizId))
    ensures forall k :: 0 <= k < |ids| ==> HasKey(r, OrderIndex, k)
  {
    var own := QuestionsOf(docs, quizId);
    forall k | 0 <= k < |ids| ensures HasKey(r, OrderIndex, k) {
      var q := MakeQuestion(ids[k], quizId, vals[k], k);
      assert ids[k] in after;
      var p :| 0 <= p < |docs| && QuestionKey(docs[p]) == ids[k];
      assert docs[p] == q;
      assert q in own;
      assert q in multiset(r);
      var m :| 0 <= m < |r| && r[m] == q;
      assert OrderIndex(r[m]) == k;
    }
  }

  /**
   * A store whose questions of the quiz are exactly the batch lists them back,
   * sorted by order index, as the batch's own list.
   */
  lemma BatchReadBack(after: map<string, Question>, quizId: string, ids: seq<string>, vals: seq<FormValues>,
                      docs: seq<Question>)
    requires |ids| == |vals|
    requires forall k :: k in after && after[k].quizId == quizId ==> InBatch(after[k], quizId, ids, vals, |ids|)
    requires forall i :: 0 <= i < |ids| ==> ids[i] in after && after[ids[i]] == MakeQuestion(ids[i], quizId, vals[i], i)
    requires Lists(docs, after, QuestionKey)
    ensures SortBy(QuestionsOf(docs, quizId), OrderIndex) == BatchList(quizId, ids, vals)
  {
    var n := |ids|;
    var own := QuestionsOf(docs, quizId);
    ListedOwnAreBatch(after, quizId, ids, vals, docs);
    FilterKeepsDistinct(docs, OfQuiz(quizId), QuestionKey);
    BatchOrderIndexesDistinct(own, quizId, ids, vals);
    SortByStrict(own, OrderIndex);
    var r := SortBy(own, OrderIndex);
    SameMultisetSameMembers(r, own);
    forall i | 0 <= i < |r| ensures InBatch(r[i], quizId, ids, vals, n) {
      var j :| 0 <= j < |own| && own[j] == r[i];
    }
    ListedCoversBatch(after, quizId, ids, vals, docs, r);
    StrictRunIsIdentity(r, OrderIndex, n);
    assert r == BatchList(quizId, ids, vals);
  }

  /**
   * Publishing, as a new quiz or as an edit whose internal read reached the
   * server, and then reading the quiz's questions from any listing of the store
   * gives back exactly the submitted forms, in order, each at its own index.
   */
  lemma PublishedQuestionsReadBack(qs: map<string, Question>, quizId: string, isEdit: bool,
                                   ids: seq<string>, vals: seq<FormValues>, f: Fetched<seq<Question>>)
    requires |ids| == |vals|
    requires forall i, j :: 0 <= i < j < |ids| ==> ids[i] != ids[j]
    requires isEdit || forall k :: k in qs ==> qs[k].quizId != quizId
    requires !f.Unreachable?
    requires Lists(f.docs, QuestionsAfterPublish(qs, quizId, isEdit, Online, ids, vals), QuestionKey)
    ensures GetQuestionsByQuizId(quizId, f) == BatchList(quizId, ids, vals)
  {
    OwnQuestionsAreBatch(qs, quizId, isEdit, ids, vals);
    BatchReadBack(QuestionsAfterPublish(qs, quizId, isEdit, Online, ids, vals), quizId, ids, vals, f.docs);
  }

  /** The published quiz is listed as active exactly when published, and as a draft exactly when saved as one. */
  lemma PublishedQuizListing(quizzes: map<string, Quiz>, quizId: string, title: string, authorId: string,
                             authorName: string, questionCount: int, status: string, createdAt: int,
                             userId: string, f: Fetched<seq<Quiz>>)
    requires !f.Unreachable?
    requires Lists(f.docs, quizzes[quizId := QuizRecord(quizId, title, authorId, authorName, questionCount, status, createdAt)], QuizKey)
    ensures var rec := QuizRecord(quizId, title, authorId, authorName, questionCount, status, createdAt);
      && (rec in GetActiveQuizzes(f) <==> status == Active)
      && (rec in GetMyDrafts(userId, f) <==> status == Draft && userId == authorId)
  {
    var rec := QuizRecord(quizId, title, authorId, authorName, questionCount, status, createdAt);
    assert quizId in quizzes[quizId := rec];
    var p :| 0 <= p < |f.docs| && QuizKey(f.docs[p]) == quizId;
    assert f.docs[p] == rec;
    var active := GetActiveQuizzes(f);
    if rec in active {
      var i :| 0 <= i < |active| && active[i] == rec;
    }
    var drafts := GetMyDrafts(userId, f);
    if rec in drafts {
      var i :| 0 <= i < |drafts| && drafts[i] == rec;
    }
  }

  /** A released quiz is listed as active and as nobody's draft. */
  lemma ReleasedQuizIsListedActive(quizzes: map<string, Quiz>, quizId: string, userId: string, f: Fetched<seq<Quiz>>)
    requires quizId in quizzes
    requires !f.Unreachable?
    requires Lists(f.docs, quizzes[quizId := Released(quizzes[quizId])], QuizKey)
    ensures Released(quizzes[quizId]) in GetActiveQuizzes(f)
    ensures Released(quizzes[quizId]) !in GetMyDrafts(userId, f)
  {
    var rel := Released(quizzes[quizId]);
    assert quizId in quizzes[quizId := rel];
    var p :| 0 <= p < |f.docs| && QuizKey(f.docs[p]) == quizId;
    assert f.docs[p] == rel;
  }

  /** A delete whose internal read reached the server leaves no question of the quiz, and every other question as it was. */
  lemma DeleteOnlineRemovesExactlyTheQuiz(quizzes: map<string, Quiz>, qs: map<string, Question>, quizId: string,
                                          fq: Fetched<seq<Quiz>>, f: Fetched<seq<Question>>)
    requires !fq.Unreachable? && Lists(fq.docs, quizzes - {quizId}, QuizKey)
    requires !f.Unreachable? && Lists(f.docs, RemoveQuestionsOf(qs, quizId, Online), QuestionKey)
    ensures forall i :: 0 <= i < |fq.docs| ==> fq.docs[i].id != quizId
    ensures GetQuestionsByQuizId(quizId, f) == []
    ensures forall k :: k in qs && qs[k].quizId != quizId ==>
      && k in RemoveQuestionsOf(qs, quizId, Online)
      && RemoveQuestionsOf(qs, quizId, Online)[k] == qs[k]
  {
  }

  /** Saving an attempt lists it once for its quiz, and leaves every other user's attempts alone. */
  lemma SavedAttemptIsListedOnce(attempts: map<string, map<string, QuizAttempt>>, uid: string, quizId: string,
                                 score: int, now: int, f: Fetched<seq<QuizAttempt>>)
    requires !f.Unreachable?
    requires Lists(f.docs, AttemptsOf(attempts, uid)[quizId := QuizAttempt(quizId, score, now)], AttemptKey)
    ensures var r := GetUserCompletedQuizzes(f);
      && QuizAttempt(quizId, score, now) in r
      && forall i :: 0 <= i < |r| && r[i].quizId == quizId ==> r[i] == QuizAttempt(quizId, score, now)
    ensures forall u :: u != uid ==>
      AttemptsOf(attempts[uid := AttemptsOf(attempts, uid)[quizId := QuizAttempt(quizId, score, now)]], u)
      == AttemptsOf(attempts, u)
  {
    assert quizId in AttemptsOf(attempts, uid)[quizId := QuizAttempt(quizId, score, now)];
    var p :| 0 <= p < |f.docs| && AttemptKey(f.docs[p]) == quizId;
    assert f.docs[p] == QuizAttempt(quizId, score, now);
  }
}
