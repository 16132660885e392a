/** The reminder list: add a reminder in the selected category, tick it off,
    delete it, and show how many are done. */
module SmartReminders {
  import opened Text
  import opened Lists

  datatype Category = Task | Goal | Motivation

  datatype Reminder = Reminder(id: string, text: string, category: Category, completed: bool)

  function ReminderId(r: Reminder): string { r.id }

  function IsCompleted(r: Reminder): bool { r.completed }

  const InitialReminders: seq<Reminder> := [
      Reminder("1", "Practice deep breathing for 5 minutes", Motivation, false),
      Reminder("2", "Prepare talking points for meeting", Task, false),
      Reminder("3", "Complete one public speaking exercise", Goal, true)
    ]

  /** `reminders.map(...)` of `toggleReminder`: the entries with the given id
      have `completed` flipped; every other entry, the length and the order
      stay as they were. */
  function Toggled(rs: seq<Reminder>, id: string): (r: seq<Reminder>)
    ensures |r| == |rs|
    ensures forall i :: 0 <= i < |rs| ==>
              r[i].id == rs[i].id && r[i].text == rs[i].text && r[i].category == rs[i].category
    ensures forall i :: 0 <= i < |rs| ==>
              r[i].completed == (if rs[i].id == id then !rs[i].completed else rs[i].completed)
  {
    if rs == [] then []
    else
      var head := if rs[0].id == id then rs[0].(completed := !rs[0].completed) else rs[0];
      [head] + Toggled(rs[1..], id)
  }

  /** Toggling the same id twice gives back the original list. */
  lemma ToggleTwice(rs: seq<Reminder>, id: string)
    ensures Toggled(Toggled(rs, id), id) == rs
  {
    var t := Toggled(Toggled(rs, id), id);
    forall i | 0 <= i < |rs| ensures t[i] == rs[i] {
    }
  }

  /** Toggling an id that no entry has changes nothing. */
  lemma ToggleAbsent(rs: seq<Reminder>, id: string)
    requires forall i :: 0 <= i < |rs| ==> rs[i].id != id
    ensures Toggled(rs, id) == rs
  {
    var t := Toggled(rs, id);
    forall i | 0 <= i < |rs| ensures t[i] == rs[i] {
    }
  }

  /** The footer's "n of m completed". */
  function CompletedCount(rs: seq<Reminder>): nat {
    CountKey(rs, IsCompleted, true)
  }

  /** The completed count never exceeds the number of reminders, and it is
      zero exactly when no reminder is ticked off. */
  lemma CompletedAtMostTotal(rs: seq<Reminder>)
    ensures CompletedCount(rs) <= |rs|
    ensures CompletedCount(rs) == 0 <==> forall i :: 0 <= i < |rs| ==> !rs[i].completed
  {
  }

  /** Deleting keeps the other reminders in their original order, drops
      exactly the entries with that id, and is a no-op for an absent id. */
  lemma DeleteProperties(rs: seq<Reminder>, id: string)
    ensures IsSubsequence(RemoveKey(rs, ReminderId, id), rs)
    ensures |RemoveKey(rs, ReminderId, id)| + CountKey(rs, ReminderId, id) == |rs|
    ensures (forall i :: 0 <= i < |rs| ==> rs[i].id != id) ==> RemoveKey(rs, ReminderId, id) == rs
  {
    RemoveKeyIsSubsequence(rs, ReminderId, id);
    RemoveKeyCount(rs, ReminderId, id);
    if forall i :: 0 <= i < |rs| ==> ReminderId(rs[i]) != id {
      RemoveKeyAbsent(rs, ReminderId, id);
    }
  }

  class ReminderList {
    var reminders: seq<Reminder>
    var newReminder: string
    var category: Category

    constructor ()
      ensures reminders == InitialReminders && newReminder == "" && category == Task
    {
      reminders := InitialReminders;
      newReminder := "";
      category := Task;
    }

    /** The input box's change handler. */
    method SetNewReminder(t: string)
      modifies this
      ensures newReminder == t && reminders == old(reminders) && category == old(category)
    {
      newReminder := t;
    }

    /** One of the three category badges. */
    method SetCategory(c: Category)
      modifies this
      ensures category == c && reminders == old(reminders) && newReminder == old(newReminder)
    {
      category := c;
    }

    /** `addReminder`, with `id` the string the clock gives at that moment.
        Blank text adds nothing; otherwise one open reminder with the typed
        text and the selected category goes to the end and the box clears. */
    method AddReminder(id: string)
      modifies this
      ensures category == old(category)
      ensures IsBlank(old(newReminder)) ==>
                reminders == old(reminders) && newReminder == old(newReminder)
      ensures !IsBlank(old(newReminder)) ==>
                reminders == old(reminders) + [Reminder(id, old(newReminder), old(category), false)]
                && newReminder == ""
    {
      TrimEmptyIffBlank(newReminder);
      if Trim(newReminder) == "" {
        return;
      }
      reminders := reminders + [Reminder(id, newReminder, category, false)];
      newReminder := "";
    }

    /** `toggleReminder`. */
    method ToggleReminder(id: string)
      modifies this
      ensures reminders == Toggled(old(reminders), id)
      ensures newReminder == old(newReminder) && category == old(category)
    {
      reminders := Toggled(reminders, id);
    }

    /** `deleteReminder`: `filter(reminder => reminder.id !== id)`. */
    method DeleteReminder(id: string)
      modifies this
      ensures reminders == RemoveKey(old(reminders), ReminderId, id)
      ensures newReminder == old(newReminder) && category == old(category)
    {
      reminders := RemoveKey(reminders, ReminderId, id);
    }

    function Completed(): (n: nat)
      reads this
      ensures n <= |reminders|
    {
      CompletedAtMostTotal(reminders);
      CompletedCount(reminders)
    }
  }
}
