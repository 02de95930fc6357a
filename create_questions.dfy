/**
 * The question-authoring screen: one form per question, edited in place, and
 * the two save buttons, of which "PUBLICAR" refuses a form with a blank field.
 */
module CreateQuestions {
  import opened Wrappers
  import opened Models
  import opened KotlinStd
  import opened QuestionForm
  import Repository

  /** `questionText.isNotBlank() && options.all { it.isNotBlank() }`. */
  predicate IsFilled(v: FormValues) {
    !IsBlank(v.text) && forall j :: 0 <= j < |v.options| ==> !IsBlank(v.options[j])
  }

  predicate AllFilled(vals: seq<FormValues>) {
    forall i :: 0 <= i < |vals| ==> IsFilled(vals[i])
  }

  datatype SaveButton = DraftButton | PublishButton

  /** The status a button hands to the save callback; `None` is the refusal toast. */
  function SaveStatus(button: SaveButton, vals: seq<FormValues>): (r: Option<string>)
    ensures button == DraftButton ==> r == Some(Draft)
    ensures button == PublishButton ==> (r.Some? <==> AllFilled(vals))
    ensures button == PublishButton && r.Some? ==> r.value == Active
  {
    match button
    case DraftButton => Some(Draft)
    case PublishButton => if AllFilled(vals) then Some(Active) else None
  }

  /** Everything a published quiz writes has a non-blank statement and non-blank options. */
  lemma PublishedQuestionsAreFilled(quizId: string, ids: seq<string>, vals: seq<FormValues>)
    requires |ids| == |vals|
    requires SaveStatus(PublishButton, vals) == Some(Active)
    ensures var written := Repository.BatchList(quizId, ids, vals);
      forall i :: 0 <= i < |written| ==>
        !IsBlank(written[i].text) && forall j :: 0 <= j < |written[i].options| ==> !IsBlank(written[i].options[j])
  {
  }

  /**
   * The publish check says nothing about the answer: a form with no
   * alternatives passes it, with an answer index that names no option.
   */
  lemma PublishAcceptsFormWithoutOptions()
    ensures var v := FormValues("Quanto é 2 + 2?", BlankOptions(0), 0);
      SaveStatus(PublishButton, [v]) == Some(Active) && !AnswerInRange(v)
  {
    var v := FormValues("Quanto é 2 + 2?", BlankOptions(0), 0);
    assert !IsWhitespace(v.text[0]);
    assert AllFilled([v]);
  }

  /**
   * The initial forms: the given ones when there are any, otherwise
   * `questionCount` new blank forms (none for a count below one).
   */
  method InitialQuestionStates(questionCount: int, alternativesCount: nat,
                               initialQuestions: Option<seq<QuestionFormState>>)
    returns (states: seq<QuestionFormState>)
    ensures initialQuestions.Some? && |initialQuestions.value| > 0 ==> states == initialQuestions.value
    ensures !(initialQuestions.Some? && |initialQuestions.value| > 0) ==>
      && |states| == (if questionCount > 0 then questionCount else 0)
      && (forall i :: 0 <= i < |states| ==> fresh(states[i]))
      && (forall i, j :: 0 <= i < j < |states| ==> states[i] != states[j])
      && Snapshot(states) == seq(|states|, _ => FormValues("", BlankOptions(alternativesCount), 0))
  {
    if initialQuestions.Some? && |initialQuestions.value| > 0 {
      return initialQuestions.value;
    }
    states := [];
    var n := if questionCount > 0 then questionCount else 0;
    while |states| < n
      invariant |states| <= n
      invariant forall i :: 0 <= i < |states| ==> fresh(states[i])
      invariant forall i, j :: 0 <= i < j < |states| ==> states[i] != states[j]
      invariant forall i :: 0 <= i < |states| ==> states[i].Values() == FormValues("", BlankOptions(alternativesCount), 0)
      decreases n - |states|
    {
      var s := new QuestionFormState(alternativesCount);
      states := states + [s];
    }
  }

  /** Typing in the statement field. */
  method EditText(state: QuestionFormState, text: string)
    modifies state
    ensures state.Values() == old(state.Values()).(text := text)
    ensures AnswerInRange(state.Values()) == AnswerInRange(old(state.Values()))
  {
    state.SetQuestionText(text);
  }

  /** Typing in option `optIndex`: a new list with that one entry replaced. */
  method EditOption(state: QuestionFormState, optIndex: int, text: string)
    requires 0 <= optIndex < |state.options|
    modifies state
    ensures |state.options| == |old(state.options)|
    ensures state.options[optIndex] == text
    ensures forall j :: 0 <= j < |state.options| && j != optIndex ==> state.options[j] == old(state.options[j])
    ensures state.questionText == old(state.questionText) && state.correctAnswerIndex == old(state.correctAnswerIndex)
    ensures AnswerInRange(state.Values()) == AnswerInRange(old(state.Values()))
  {
    var newList := state.options[optIndex := text];
    state.SetOptions(newList);
  }

  /** A tap on option `optIndex`'s radio button makes it the answer. */
  method SelectCorrect(state: QuestionFormState, optIndex: int)
    requires 0 <= optIndex < |state.options|
    modifies state
    ensures state.correctAnswerIndex == optIndex
    ensures state.questionText == old(state.questionText) && state.options == old(state.options)
    ensures AnswerInRange(state.Values())
  {
    state.SetCorrectAnswerIndex(optIndex);
  }

  /** Filling every field of a form makes it pass the publish check, whatever the answer. */
  lemma FilledFormsPublish(vals: seq<FormValues>)
    requires forall i :: 0 <= i < |vals| ==> !IsBlank(vals[i].text)
    requires forall i, j :: 0 <= i < |vals| && 0 <= j < |vals[i].options| ==> !IsBlank(vals[i].options[j])
    ensures SaveStatus(PublishButton, vals) == Some(Active)
  {
  }

  /** A blank statement anywhere refuses publishing, though saving as a draft still works. */
  lemma BlankTextRefusesPublish(vals: seq<FormValues>, i: int)
    requires 0 <= i < |vals| && IsBlank(vals[i].text)
    ensures SaveStatus(PublishButton, vals) == None
    ensures SaveStatus(DraftButton, vals) == Some(Draft)
  {
  }

  /** The screen's own state besides the forms: the exit confirmation. */
  class CreateQuestionsScreenState {
    var questionsStates: seq<QuestionFormState>
    var showExitDialog: bool

    constructor (questionCount: int, alternativesCount: nat, initialQuestions: Option<seq<QuestionFormState>>)
      ensures !showExitDialog
      ensures initialQuestions.Some? && |initialQuestions.value| > 0 ==> questionsStates == initialQuestions.value
      ensures !(initialQuestions.Some? && |initialQuestions.value| > 0) ==>
        |questionsStates| == (if questionCount > 0 then questionCount else 0)
    {
      var states := InitialQuestionStates(questionCount, alternativesCount, initialQuestions);
      questionsStates := states;
      showExitDialog := false;
    }

    /** The back arrow and the system back both ask before leaving. */
    method AskExit()
      modifies this
      ensures showExitDialog && questionsStates == old(questionsStates)
    {
      showExitDialog := true;
    }

    /** "Continuar Editando" or a dismissal closes the confirmation. */
    method KeepEditing()
      modifies this
      ensures !showExitDialog && questionsStates == old(questionsStates)
    {
      showExitDialog := false;
    }

    /** A save button: the forms as they stand and the status, or the refusal. */
    function Save(button: SaveButton): (r: Option<(seq<QuestionFormState>, string)>)
      reads this, questionsStates
      ensures r.Some? ==> r.value.0 == questionsStates
      ensures r.Some? <==> button == DraftButton || AllFilled(Snapshot(questionsStates))
    {
      match SaveStatus(button, Snapshot(questionsStates))
      case Some(status) => Some((questionsStates, status))
      case None => None
    }
  }
}
