/**
 * The documents of the remote store: a quiz envelope, one of its questions, and
 * a player's recorded attempt. Kotlin data classes, so two values are equal
 * exactly when all their fields are; Dafny datatypes have the same equality.
 * `Long` timestamps are opaque integers; the clock itself is a parameter.
 */
module Models {

  /** The two quiz statuses: published and draft. */
  const Active: string := "ativo"
  const Draft: string := "rascunho"

  /**
   * A quiz. `status` is a non-null `String` in Kotlin, but a document may store
   * null there; every reader treats null like the empty string, so "" stands for both.
   */
  datatype Quiz = Quiz(
    id: string,
    title: string,
    authorId: string,
    authorName: string,
    questionCount: int,
    isActive: bool,
    createdAt: int,
    status: string)

  /** A question; nothing ties `correctAnswerIndex` to the length of `options`. */
  datatype Question = Question(
    id: string,
    quizId: string,
    text: string,
    options: seq<string>,
    correctAnswerIndex: int,
    orderIndex: int)

  /** One attempt of one player at one quiz, stored under the quiz id. */
  datatype QuizAttempt = QuizAttempt(quizId: string, score: int, completedAt: int)

  /** `Quiz()`: every default; `now` is the clock reading the default creation time takes. */
  function DefaultQuiz(now: int): Quiz {
    Quiz("", "", "", "", 0, true, now, Active)
  }

  /** `Question()`: every default. */
  function DefaultQuestion(): Question {
    Question("", "", "", [], 0, 0)
  }

  /** `QuizAttempt()`: every default. */
  function DefaultAttempt(now: int): QuizAttempt {
    QuizAttempt("", 0, now)
  }

  /** The answer index names one of the options. */
  predicate HasAnswerInRange(q: Question) {
    0 <= q.correctAnswerIndex < |q.options|
  }

  /** A default quiz is an empty, published, active quiz stamped with the clock. */
  lemma DefaultQuizIsEmptyPublished(now: int)
    ensures var q := DefaultQuiz(now);
      q.id == "" && q.title == "" && q.authorId == "" && q.authorName == ""
      && q.questionCount == 0 && q.isActive && q.status == Active && q.createdAt == now
  {
  }

  /**
   * The question type does not enforce an answer in range: its own default has
   * answer index 0, order index 0 and no options at all.
   */
  lemma DefaultQuestionHasNoValidAnswer()
    ensures DefaultQuestion().options == [] && DefaultQuestion().orderIndex == 0
    ensures !HasAnswerInRange(DefaultQuestion())
  {
  }

  /** Equality of quizzes is structural over all eight fields. */
  lemma QuizEqualityIsStructural(a: Quiz, b: Quiz)
    ensures a == b <==>
      a.id == b.id && a.title == b.title && a.authorId == b.authorId && a.authorName == b.authorName
      && a.questionCount == b.questionCount && a.isActive == b.isActive
      && a.createdAt == b.createdAt && a.status == b.status
  {
  }

  /** Equality of questions is structural over all six fields. */
  lemma QuestionEqualityIsStructural(a: Question, b: Question)
    ensures a == b <==>
      a.id == b.id && a.quizId == b.quizId && a.text == b.text && a.options == b.options
      && a.correctAnswerIndex == b.correctAnswerIndex && a.orderIndex == b.orderIndex
  {
  }
}
