/**
 * One play-through of a quiz: the loaded questions are shown one page at a
 * time; tapping an option on an unanswered page records it, scores it, and
 * then moves to the next page or, on the last page, reports the final score.
 * Pages cannot be swiped by hand, so answering is the only way to move.
 */
module PlayQuiz {
  import opened Wrappers
  import opened Models

  /** Points for a correct answer. */
  const PointsPerCorrect: int := 10

  /** Page `p` holds an answer and it is that page's correct option. */
  predicate AnsweredCorrectly(questions: seq<Question>, answers: map<int, int>, p: int)
    requires 0 <= p < |questions|
  {
    p in answers && answers[p] == questions[p].correctAnswerIndex
  }

  /** How many of the first `n` pages were answered correctly. */
  function CorrectCount(questions: seq<Question>, answers: map<int, int>, n: nat): (c: nat)
    requires n <= |questions|
    ensures c <= n
  {
    if n == 0 then 0
    else CorrectCount(questions, answers, n - 1) + (if AnsweredCorrectly(questions, answers, n - 1) then 1 else 0)
  }

  /** Recording a first answer on page `p` adds one correct page exactly when the answer is right. */
  lemma {:induction false} CorrectCountAfterAnswer(questions: seq<Question>, answers: map<int, int>,
                                                  p: int, index: int, n: nat)
    requires 0 <= p < |questions| && p !in answers
    requires n <= |questions|
    ensures CorrectCount(questions, answers[p := index], n)
         == CorrectCount(questions, answers, n) + (if p < n && index == questions[p].correctAnswerIndex then 1 else 0)
  {
    if n > 0 {
      CorrectCountAfterAnswer(questions, answers, p, index, n - 1);
    }
  }

  /** With no answer recorded, nothing is correct. */
  lemma {:induction false} CorrectCountEmpty(questions: seq<Question>, n: nat)
    requires n <= |questions|
    ensures CorrectCount(questions, map[], n) == 0
  {
    if n > 0 {
      CorrectCountEmpty(questions, n - 1);
    }
  }

  class PlaySession {
    var questions: seq<Question>
    var selectedAnswers: map<int, int>
    var score: int
    var currentPage: int
    /** The score handed to the finish callback, once the last page is answered. */
    var finished: Option<int>

    ghost predicate Valid()
      reads this
    {
      && (|questions| > 0 ==> 0 <= currentPage < |questions|)
      && (|questions| == 0 ==> currentPage == 0 && selectedAnswers == map[] && finished.None?)
      && (forall p :: 0 <= p < currentPage ==> p in selectedAnswers)
      && (forall p :: p in selectedAnswers ==> 0 <= p <= currentPage)
      && score == PointsPerCorrect * CorrectCount(questions, selectedAnswers, |questions|)
      && (finished.Some? ==> finished.value == score && currentPage == |questions| - 1 && currentPage in selectedAnswers)
    }

    /** The screen once its questions are loaded: first page, no answer, no score. */
    constructor (loaded: seq<Question>)
      ensures Valid()
      ensures questions == loaded && selectedAnswers == map[] && score == 0
      ensures currentPage == 0 && finished.None?
    {
      questions := loaded;
      selectedAnswers := map[];
      score := 0;
      currentPage := 0;
      finished := None;
      CorrectCountEmpty(loaded, |loaded|);
    }

    /**
     * A tap on option `index` of the page on screen. Options are shown only
     * when there is at least one question, and only the question's own options
     * can be tapped. An answered page ignores taps.
     */
    method Choose(index: int)
      requires Valid()
      requires |questions| > 0 && finished.None?
      requires 0 <= index < |questions[currentPage].options|
      modifies this
      ensures Valid()
      ensures questions == old(questions)
      ensures 0 <= score <= PointsPerCorrect * |questions|
      ensures old(currentPage) in old(selectedAnswers) ==>
        && selectedAnswers == old(selectedAnswers) && score == old(score)
        && currentPage == old(currentPage) && finished == old(finished)
      ensures old(currentPage) !in old(selectedAnswers) ==>
        && selectedAnswers == old(selectedAnswers)[old(currentPage) := index]
        && score == old(score) + (if index == questions[old(currentPage)].correctAnswerIndex then PointsPerCorrect else 0)
        && (if old(currentPage) < |questions| - 1
            then currentPage == old(currentPage) + 1 && finished.None?
            else currentPage == old(currentPage) && finished == Some(score))
      ensures finished.Some? ==> forall p :: 0 <= p < |questions| ==> p in selectedAnswers
    {
      var page := currentPage;
      if page in selectedAnswers {
        return;
      }
      CorrectCountAfterAnswer(questions, selectedAnswers, page, index, |questions|);
      selectedAnswers := selectedAnswers[page := index];
      if index == questions[page].correctAnswerIndex {
        score := score + PointsPerCorrect;
      }
      if page < |questions| - 1 {
        currentPage := page + 1;
      } else {
        finished := Some(score);
      }
    }
  }

  /** The reported score is ten points per correctly answered page, so at most ten per question. */
  lemma FinalScoreBounds(questions: seq<Question>, answers: map<int, int>)
    ensures var s := PointsPerCorrect * CorrectCount(questions, answers, |questions|);
      0 <= s <= PointsPerCorrect * |questions| && s % PointsPerCorrect == 0
  {
  }
}
