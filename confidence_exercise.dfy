/** The four-step confidence exercise: a wizard that saves one non-blank
    answer per step, can step back to an earlier answer, and ends in a
    completed view until it is reset. */
module ConfidenceExercise {
  import opened Text
  import opened Lists

  datatype Step = Step(title: string, instruction: string, prompt: Option<string>, placeholder: Option<string>)

  const Steps: seq<Step> := [
      Step("Identify Your Strengths",
           "List 3 things you're good at or proud of achieving.",
           None,
           Some("I'm good at listening to others, I completed a challenging project last month...")),
      Step("Challenge Negative Thoughts",
           "Write down a negative thought you have about public speaking or performing.",
           Some("When I think about speaking in front of others, I worry that..."),
           Some("I'll forget what to say, people will judge me...")),
      Step("Reframe Your Thought",
           "Now, rewrite that thought in a more positive, realistic way.",
           Some("A more balanced way to think about this is..."),
           Some("I've prepared well and can refer to my notes if needed...")),
      Step("Visualization",
           "Describe how you would confidently handle your next presentation or performance.",
           None,
           Some("I'll arrive early to set up, take deep breaths before starting, focus on my message..."))
    ]

  /** The number of steps, `steps.length`. */
  const StepCount := 4

  lemma StepCountIsLength()
    ensures |Steps| == StepCount
  {
  }

  /** `newResponses[k] = x` on an array with no holes before `k`: the entry
      at `k` becomes `x` (the array grows by one when `k` is its length) and
      every other entry stays. */
  function StoreAt(rs: seq<string>, k: nat, x: string): (r: seq<string>)
    requires k <= |rs|
    ensures |r| == Max(|rs|, k + 1) && r[k] == x
    ensures forall i :: 0 <= i < |rs| && i != k ==> r[i] == rs[i]
  {
    if k < |rs| then rs[k := x] else rs + [x]
  }

  /** The answer `handlePreviousStep` puts back in the text box:
      `responses[k] || ''`. */
  function SavedAnswer(rs: seq<string>, k: int): (a: string)
    ensures 0 <= k < |rs| ==> a == rs[k]
    ensures !(0 <= k < |rs|) ==> a == ""
  {
    if 0 <= k < |rs| then rs[k] else ""
  }

  class Exercise {
    var currentStep: nat
    var responses: seq<string>
    var currentResponse: string
    var isComplete: bool

    /** The step stays on one of the four steps, every earlier step has a
        saved answer and none of the saved answers is blank; a completed
        exercise holds all four answers. */
    ghost predicate Valid()
      reads this
    {
      && currentStep < StepCount
      && currentStep <= |responses| <= StepCount
      && (forall i :: 0 <= i < |responses| ==> !IsBlank(responses[i]))
      && (isComplete ==> |responses| == StepCount)
    }

    constructor ()
      ensures Valid()
      ensures currentStep == 0 && responses == [] && currentResponse == "" && !isComplete
    {
      currentStep := 0;
      responses := [];
      currentResponse := "";
      isComplete := false;
    }

    /** The text box's change handler; the box is shown only until the
        exercise is complete. */
    method SetResponse(t: string)
      requires Valid() && !isComplete
      modifies this
      ensures Valid()
      ensures currentResponse == t
      ensures currentStep == old(currentStep) && responses == old(responses) && isComplete == old(isComplete)
    {
      currentResponse := t;
    }

    /** `handleNextStep`. A blank answer changes nothing. Otherwise the
        answer is saved at the current step; before the last step the wizard
        moves on with an empty box, on the last one it is marked complete. The button is shown only until
        the exercise is complete. */
    method NextStep()
      requires Valid() && !isComplete
      modifies this
      ensures Valid()
      ensures IsBlank(old(currentResponse)) ==>
                currentStep == old(currentStep) && responses == old(responses)
                && currentResponse == old(currentResponse) && isComplete == old(isComplete)
      ensures !IsBlank(old(currentResponse)) ==>
                responses == StoreAt(old(responses), old(currentStep), old(currentResponse))
      ensures !IsBlank(old(currentResponse)) && old(currentStep) < StepCount - 1 ==>
                currentStep == old(currentStep) + 1 && currentResponse == "" && isComplete == old(isComplete)
      ensures !IsBlank(old(currentResponse)) && old(currentStep) == StepCount - 1 ==>
                currentStep == old(currentStep) && currentResponse == old(currentResponse) && isComplete
    {
      TrimEmptyIffBlank(currentResponse);
      if Trim(currentResponse) == "" {
        return;
      }
      responses := StoreAt(responses, currentStep, currentResponse);
      if currentStep < StepCount - 1 {
        currentStep := currentStep + 1;
        currentResponse := "";
      } else {
        isComplete := true;
      }
    }

    /** `handlePreviousStep`: on the first step nothing happens; otherwise
        the wizard goes back one step and shows the answer saved there. The
        button is shown only until the exercise is complete. */
    method PreviousStep()
      requires Valid() && !isComplete
      modifies this
      ensures Valid()
      ensures responses == old(responses) && isComplete == old(isComplete)
      ensures currentStep != old(currentStep) <==> old(BackEnabled())
      ensures old(currentStep) == 0 ==> currentStep == 0 && currentResponse == old(currentResponse)
      ensures old(currentStep) > 0 ==>
                currentStep == old(currentStep) - 1 && currentResponse == responses[currentStep]
    {
      if currentStep > 0 {
        currentStep := currentStep - 1;
        currentResponse := SavedAnswer(responses, currentStep);
      }
    }

    /** `handleReset`: back to the initial state. */
    method Reset()
      modifies this
      ensures Valid()
      ensures currentStep == 0 && responses == [] && currentResponse == "" && !isComplete
    {
      currentStep := 0;
      responses := [];
      currentResponse := "";
      isComplete := false;
    }

    /** The Back button is disabled on the first step. When it is enabled
        there is a saved answer for the step it goes back to. */
    function BackEnabled(): (b: bool)
      reads this
      ensures b <==> currentStep > 0
      ensures Valid() && b ==> currentStep - 1 < |responses|
    {
      currentStep != 0
    }

    /** The Next/Complete button is disabled while the answer is blank. */
    function NextEnabled(): (b: bool)
      reads this
      ensures b <==> !IsBlank(currentResponse)
    {
      TrimEmptyIffBlank(currentResponse);
      Trim(currentResponse) != ""
    }
  }
}
