/**
 * The RSVP form (src/components/wedding/RSVPSection.tsx).
 *
 * The component holds a form record and a `submitted` flag.  Each input's
 * change handler replaces one field.  A submit with an empty name is stopped
 * by the browser, because the name input is `required`; the submit handler
 * rejects a form without an attendance choice (signalled by an error
 * notification) and otherwise hands the form to the parent's `onSubmit`
 * callback and flips `submitted`, after which a thank-you note replaces the
 * form.
 */
module Rsvp {

  /** The radio group's value: "" until a choice is made, then "yes" or "no". */
  datatype Attendance = Unset | Yes | No

  datatype FormData = FormData(name: string, attendance: Attendance, guests: int, wishes: string)

  /** The form as first rendered. */
  const InitialForm: FormData := FormData("", Unset, 1, "")

  /** The options of the guest-count select. */
  const GuestChoices: seq<int> := [1, 2, 3, 4, 5]

  /**
   * What pressing the submit button does with a form.  `Blocked` is the
   * browser's validation of the `required` name input: the submit event never
   * fires and no notification is shown.  `Rejected` is handleSubmit's early
   * return with the "please complete the required fields" notification;
   * `Accepted(d)` is the call `onSubmit(d)` followed by the thank-you
   * notification.
   */
  datatype SubmitOutcome = Blocked | Rejected | Accepted(data: FormData)

  /**
   * The browser's check of the name input, then the guard of handleSubmit.
   * Both `required` and JavaScript's `!formData.name` refuse exactly the
   * empty string, so a name made of spaces passes; with the browser's check
   * first, the handler's own name test never fires.  `!formData.attendance`
   * is true exactly for the unset choice "".
   */
  function Decide(f: FormData): (r: SubmitOutcome)
    ensures r.Blocked? <==> f.name == []
    ensures r.Rejected? <==> f.name != [] && f.attendance == Unset
    ensures r.Accepted? <==> f.name != [] && f.attendance != Unset
    ensures r.Accepted? ==> r.data == f
  {
    if f.name == [] then Blocked
    else if f.attendance == Unset then Rejected
    else Accepted(f)
  }

  /** The state of one mounted RSVP section. */
  class RsvpSection {
    var form: FormData
    var submitted: bool

    /** The guest count is always one of the select's options. */
    ghost predicate Valid()
      reads this
    {
      form.guests in GuestChoices
    }

    /** The input form is rendered only until an accepted submission. */
    predicate FormShown()
      reads this
    {
      !submitted
    }

    constructor ()
      ensures Valid() && form == InitialForm && !submitted
    {
      form := InitialForm;
      submitted := false;
    }

    /** The name input's change handler: only the name changes. */
    method EditName(v: string)
      requires Valid() && FormShown()
      modifies this
      ensures Valid() && form == old(form).(name := v) && submitted == old(submitted)
    {
      form := form.(name := v);
    }

    /** The two radio buttons' change handlers: they only ever set "yes" or "no". */
    method ChooseAttendance(a: Attendance)
      requires Valid() && FormShown() && a != Unset
      modifies this
      ensures Valid() && form == old(form).(attendance := a) && submitted == old(submitted)
    {
      form := form.(attendance := a);
    }

    /**
     * The guest-count select's change handler.  The select is rendered only
     * while attendance is "yes", and offers only 1 to 5.
     */
    method ChooseGuests(g: int)
      requires Valid() && FormShown() && form.attendance == Yes && g in GuestChoices
      modifies this
      ensures Valid() && form == old(form).(guests := g) && submitted == old(submitted)
      ensures 1 <= form.guests <= 5
    {
      form := form.(guests := g);
    }

    /** The wishes text area's change handler: only the wishes text changes. */
    method EditWishes(v: string)
      requires Valid() && FormShown()
      modifies this
      ensures Valid() && form == old(form).(wishes := v) && submitted == old(submitted)
    {
      form := form.(wishes := v);
    }

    /**
     * Pressing the submit button: the browser's validation, then handleSubmit.
     * The form itself is never changed; `submitted` becomes true exactly when
     * the callback fires, and then with the form unmodified.
     */
    method Submit() returns (outcome: SubmitOutcome)
      requires Valid() && FormShown()
      modifies this
      ensures Valid() && form == old(form)
      ensures outcome == Decide(old(form))
      ensures submitted <==> outcome.Accepted?
      ensures !outcome.Accepted? ==> FormShown()
    {
      outcome := Decide(form);
      if outcome.Accepted? {
        submitted := true;
      }
    }
  }
}
