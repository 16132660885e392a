/** The daily mood check-in and the hour-based greeting it (and the home
    page) shows. */
module MoodTracker {
  import opened Lists

  /** `getGreeting` for the local hour `hour` (0 to 23). */
  function Greeting(hour: int): (g: string)
    ensures g == "Good morning" <==> hour < 12
    ensures g == "Good afternoon" <==> 12 <= hour < 18
    ensures g == "Good evening" <==> 18 <= hour
  {
    if hour < 12 then "Good morning"
    else if hour < 18 then "Good afternoon"
    else "Good evening"
  }

  /** The rank of a greeting in the course of a day. */
  function GreetingRank(g: string): nat {
    if g == "Good morning" then 0 else if g == "Good afternoon" then 1 else 2
  }

  /** Later in the day never gives an earlier greeting. */
  lemma GreetingMonotone(h1: int, h2: int)
    requires h1 <= h2
    ensures GreetingRank(Greeting(h1)) <= GreetingRank(Greeting(h2))
  {
  }

  /** The six mood buttons, by value. */
  const MoodValues: seq<string> := ["happy", "okay", "down", "confident", "tired", "loved"]

  /** The line shown after submitting, one per mood; nothing for any
      other value. */
  function ThanksLine(mood: Option<string>): (s: string)
    ensures s != "" <==> mood.Some? && mood.value in MoodValues
  {
    if mood == Some("happy") then "It's great to see you happy!"
    else if mood == Some("okay") then "Having an okay day is perfectly fine."
    else if mood == Some("down") then "I'm here for you on the tougher days."
    else if mood == Some("confident") then "That confidence will take you far!"
    else if mood == Some("tired") then "Remember to take breaks and rest well."
    else if mood == Some("loved") then "That warm feeling is so important!"
    else ""
  }

  class CheckIn {
    var selectedMood: Option<string>
    var isSubmitted: bool

    constructor ()
      ensures selectedMood == None && !isSubmitted
    {
      selectedMood := None;
      isSubmitted := false;
    }

    /** `handleMoodSelect`; the mood buttons are shown only before the
        check-in is submitted. */
    method SelectMood(value: string)
      requires !isSubmitted
      modifies this
      ensures selectedMood == Some(value) && isSubmitted == old(isSubmitted)
    {
      selectedMood := Some(value);
    }

    /** `handleSubmit`: refused (with a warning toast) while no mood is
        selected; otherwise the check-in is done. */
    method Submit()
      modifies this
      ensures selectedMood == old(selectedMood)
      ensures !(selectedMood.Some? && selectedMood.value != "") ==> isSubmitted == old(isSubmitted)
      ensures selectedMood.Some? && selectedMood.value != "" ==> isSubmitted
    {
      if selectedMood.None? || selectedMood.value == "" {
        return;
      }
      isSubmitted := true;
    }

    /** The card title at local hour `hour`. */
    function Title(hour: int): (t: string)
      reads this
      ensures isSubmitted ==> t == "Thanks for checking in!"
      ensures !isSubmitted ==> t == Greeting(hour) + "! How are you feeling today?"
    {
      if isSubmitted then "Thanks for checking in!" else Greeting(hour) + "! How are you feeling today?"
    }
  }
}
