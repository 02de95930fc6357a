/**
 * The dialog that starts a new quiz: a title and two digit-only fields for
 * the number of questions and of alternatives, confirmed by "Próximo".
 */
module SetupDialog {
  import opened Wrappers
  import opened KotlinStd

  const InitialCount: string := "5"
  const InitialAlternatives: string := "4"
  const FallbackCount: int := 5
  const FallbackAlternatives: int := 4

  /** `s.toIntOrNull() ?: fallback`. */
  function ParseOr(s: string, fallback: int): (r: int)
    ensures s == "" ==> r == fallback
    ensures AllDigits(s) && s != "" && DigitsValue(s) <= IntMax ==> r == DigitsValue(s)
    ensures AllDigits(s) && s != "" && DigitsValue(s) > IntMax ==> r == fallback
    ensures AllDigits(s) && fallback >= 0 ==> r >= 0
  {
    ToIntOrNull(s).GetOr(fallback)
  }

  /** What "Próximo" hands on: the question count, the title and the alternatives count. */
  datatype NextRequest = NextRequest(count: int, title: string, alternatives: int)

  class SetupDialogState {
    var title: string
    var count: string
    var alternatives: string

    /** The two number fields only ever hold digits. */
    ghost predicate Valid()
      reads this
    {
      AllDigits(count) && AllDigits(alternatives)
    }

    constructor ()
      ensures Valid()
      ensures title == "" && count == InitialCount && alternatives == InitialAlternatives
    {
      title := "";
      count := InitialCount;
      alternatives := InitialAlternatives;
    }

    method EditTitle(text: string)
      modifies this
      ensures title == text && count == old(count) && alternatives == old(alternatives)
    {
      title := text;
    }

    /** An edit of the count field is taken only when every character is a digit. */
    method EditCount(text: string)
      requires Valid()
      modifies this
      ensures Valid()
      ensures count == (if AllDigits(text) then text else old(count))
      ensures title == old(title) && alternatives == old(alternatives)
    {
      if AllDigits(text) {
        count := text;
      }
    }

    /** An edit of the alternatives field is taken only when every character is a digit. */
    method EditAlternatives(text: string)
      requires Valid()
      modifies this
      ensures Valid()
      ensures alternatives == (if AllDigits(text) then text else old(alternatives))
      ensures title == old(title) && count == old(count)
    {
      if AllDigits(text) {
        alternatives := text;
      }
    }

    /** "Próximo": nothing for a blank title; otherwise the parsed fields, with their fallbacks. */
    function Next(): (r: Option<NextRequest>)
      reads this
      ensures r.Some? <==> !IsBlank(title)
      ensures r.Some? ==> r.value.title == title
      ensures r.Some? && Valid() ==> r.value.count >= 0 && r.value.alternatives >= 0
      ensures r.Some? && count == "" ==> r.value.count == FallbackCount
      ensures r.Some? && alternatives == "" ==> r.value.alternatives == FallbackAlternatives
    {
      if IsBlank(title) then None
      else Some(NextRequest(ParseOr(count, FallbackCount), title, ParseOr(alternatives, FallbackAlternatives)))
    }
  }

  /** Left untouched, the number fields give five questions of four alternatives. */
  lemma UntouchedFieldsGiveDefaults(title: string)
    requires !IsBlank(title)
    ensures ParseOr(InitialCount, FallbackCount) == 5
    ensures ParseOr(InitialAlternatives, FallbackAlternatives) == 4
  {
    assert DigitsValue(InitialCount) == 5 by {
      assert InitialCount[..0] == [];
    }
    assert DigitsValue(InitialAlternatives) == 4 by {
      assert InitialAlternatives[..0] == [];
    }
  }
}
