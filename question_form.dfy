/**
 * The authoring state of one question while the quiz is being written: three
 * independently assignable fields, observed by the form.
 */
module QuestionForm {

  /** The default number of alternatives of a new question. */
  const DefaultAlternativesCount: nat := 4

  /** The values of a form state at one moment. */
  datatype FormValues = FormValues(text: string, options: seq<string>, correctAnswerIndex: int)

  /** `List(n) { "" }`. */
  function BlankOptions(n: nat): (r: seq<string>)
    ensures |r| == n
    ensures forall i :: 0 <= i < n ==> r[i] == ""
  {
    seq(n, _ => "")
  }

  /** The answer index names one of the options. */
  predicate AnswerInRange(v: FormValues) {
    0 <= v.correctAnswerIndex < |v.options|
  }

  class QuestionFormState {
    var questionText: string
    var options: seq<string>
    var correctAnswerIndex: int

    /**
     * `QuestionFormState(alternativesCount)`. Building the list throws for a
     * negative size, so the count is a `nat`.
     */
    constructor (alternativesCount: nat)
      ensures questionText == ""
      ensures options == BlankOptions(alternativesCount)
      ensures correctAnswerIndex == 0
    {
      questionText := "";
      options := BlankOptions(alternativesCount);
      correctAnswerIndex := 0;
    }

    /** `QuestionFormState()`: four blank alternatives. */
    constructor Default()
      ensures questionText == "" && correctAnswerIndex == 0
      ensures options == BlankOptions(DefaultAlternativesCount)
    {
      questionText := "";
      options := BlankOptions(DefaultAlternativesCount);
      correctAnswerIndex := 0;
    }

    function Values(): FormValues
      reads this
    {
      FormValues(questionText, options, correctAnswerIndex)
    }

    method SetQuestionText(text: string)
      modifies this
      ensures questionText == text
      ensures options == old(options) && correctAnswerIndex == old(correctAnswerIndex)
    {
      questionText := text;
    }

    method SetOptions(newOptions: seq<string>)
      modifies this
      ensures options == newOptions
      ensures questionText == old(questionText) && correctAnswerIndex == old(correctAnswerIndex)
    {
      options := newOptions;
    }

    method SetCorrectAnswerIndex(index: int)
      modifies this
      ensures correctAnswerIndex == index
      ensures questionText == old(questionText) && options == old(options)
    {
      correctAnswerIndex := index;
    }
  }

  /** The values of a list of form states, in order. */
  function Snapshot(states: seq<QuestionFormState>): (r: seq<FormValues>)
    reads states
    ensures |r| == |states|
    ensures forall i :: 0 <= i < |r| ==> r[i] == states[i].Values()
  {
    if |states| == 0 then [] else [states[0].Values()] + Snapshot(states[1..])
  }

  /** A fresh state's answer index 0 names an option exactly when there is at least one alternative. */
  lemma InitialAnswerInRangeIff(alternativesCount: nat)
    ensures AnswerInRange(FormValues("", BlankOptions(alternativesCount), 0)) <==> alternativesCount >= 1
  {
  }
}
