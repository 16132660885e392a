/** One quiz question card: pick an option, submit it, see whether it was
    right, and reset for another try. */
module QuizCard {
  import opened Lists

  /** The marks shown next to an option after submission. */
  datatype Mark = NoMark | Tick | Cross

  /** What the footer shows: the submit button (possibly disabled) before
      submission, the retry button after. */
  datatype FooterButton = SubmitAnswer(enabled: bool) | TryAnother

  /** JavaScript truthiness of the selection: null and "" are false. */
  predicate Chosen(selected: Option<string>) {
    selected.Some? && selected.value != ""
  }

  class Card {
    const correctOptionId: string
    var selectedOptionId: Option<string>
    var isSubmitted: bool

    constructor (correct: string)
      ensures correctOptionId == correct && selectedOptionId == None && !isSubmitted
    {
      correctOptionId := correct;
      selectedOptionId := None;
      isSubmitted := false;
    }

    /** `handleOptionSelect`: ignored once submitted. */
    method SelectOption(optionId: string)
      modifies this
      ensures isSubmitted == old(isSubmitted)
      ensures selectedOptionId == (if old(isSubmitted) then old(selectedOptionId) else Some(optionId))
    {
      if !isSubmitted {
        selectedOptionId := Some(optionId);
      }
    }

    /** `handleSubmit`. */
    method Submit()
      modifies this
      ensures isSubmitted && selectedOptionId == old(selectedOptionId)
    {
      isSubmitted := true;
    }

    /** `handleReset`. */
    method Reset()
      modifies this
      ensures selectedOptionId == None && !isSubmitted
    {
      selectedOptionId := None;
      isSubmitted := false;
    }

    /** `selectedOptionId === correctOptionId`: no selection is never
        correct. */
    function IsCorrect(): (b: bool)
      reads this
      ensures b <==> selectedOptionId.Some? && selectedOptionId.value == correctOptionId
      ensures selectedOptionId.None? ==> !b
    {
      match selectedOptionId
      case None => false
      case Some(id) => id == correctOptionId
    }

    /** The footer: submitting is offered, and enabled only with a truthy
        selection, until the answer is submitted. */
    function Footer(): (f: FooterButton)
      reads this
      ensures f == TryAnother <==> isSubmitted
      ensures f.SubmitAnswer? ==> (f.enabled <==> Chosen(selectedOptionId))
    {
      if isSubmitted then TryAnother else SubmitAnswer(Chosen(selectedOptionId))
    }

    /** The verdict shown under the options once submitted. */
    function Verdict(): (v: Option<string>)
      reads this
      ensures v.Some? <==> isSubmitted
      ensures isSubmitted ==> (v == Some("Correct!") <==> IsCorrect())
      ensures isSubmitted ==> (v == Some("Not quite.") <==> !IsCorrect())
    {
      if !isSubmitted then None
      else if IsCorrect() then Some("Correct!")
      else Some("Not quite.")
    }

    /** The mark on option `optionId`: before submission none; after it the
        correct option, and only it, gets a tick and a wrong chosen option a
        cross. */
    function MarkOf(optionId: string): (m: Mark)
      reads this
      ensures !isSubmitted ==> m == NoMark
      ensures m == Tick <==> isSubmitted && optionId == correctOptionId
      ensures m == Cross <==>
                isSubmitted && selectedOptionId == Some(optionId) && optionId != correctOptionId
    {
      if isSubmitted && optionId == correctOptionId then Tick
      else if isSubmitted && selectedOptionId == Some(optionId) && !IsCorrect() then Cross
      else NoMark
    }
  }
}
