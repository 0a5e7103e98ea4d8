/**
 * The invitation page (src/pages/Index.tsx).
 *
 * The page holds an `isOpen` gate and the list of wishes guests have sent.
 * While closed it shows only the cover; once opened, the main content,
 * including the RSVP form, which is mounted then.  The RSVP form's
 * `onSubmit` callback prepends a wish built from the submitted name and
 * wishes text, stamped with the current date.  The date comes from the
 * clock and the browser's locale; here it is the parameter `today`.
 */
module Invitation {
  import opened Wrappers
  import opened Rsvp
  import opened Wishes

  /**
   * handleRSVPSubmit's new wish list.  A submission with wishes text adds one
   * wish, at the front, carrying the name and text verbatim; one without
   * leaves the list as it was.  Earlier wishes keep their order behind it.
   */
  function AfterSubmit(prev: seq<Wish>, data: FormData, today: string): (r: seq<Wish>)
    ensures |r| == if data.wishes == [] then |prev| else |prev| + 1
    ensures r[|r| - |prev|..] == prev
    ensures data.wishes != [] ==>
      r[0].name == data.name && r[0].message == data.wishes && r[0].date == Some(today)
  {
    if data.wishes != [] then [Wish(data.name, data.wishes, Some(today))] + prev else prev
  }

  /** The attendance choice and guest count never reach the wish list. */
  lemma AttendanceNotRecorded(prev: seq<Wish>, d1: FormData, d2: FormData, today: string)
    requires d1.name == d2.name && d1.wishes == d2.wishes
    ensures AfterSubmit(prev, d1, today) == AfterSubmit(prev, d2, today)
  {
  }

  /** The most recently submitted wish is the first card of the board. */
  lemma LatestWishShownFirst(prev: seq<Wish>, data: FormData, today: string)
    requires data.wishes != []
    ensures Cards(AfterSubmit(prev, data, today))[0] == Card(data.wishes, data.name, DateLine(Wish(data.name, data.wishes, Some(today))))
  {
  }

  /** The page component. */
  class IndexPage {
    var isOpen: bool
    var wishes: seq<Wish>
    /** The RSVP section, mounted with the main content. */
    var rsvp: RsvpSection?

    /**
     * The RSVP section exists exactly while the page is open, and since its
     * form disappears after one accepted submission, at most one guest wish
     * can reach the list per page load.
     */
    ghost predicate Valid()
      reads this, rsvp
    {
      (isOpen <==> rsvp != null) &&
      (rsvp != null ==> rsvp.Valid()) &&
      (rsvp == null || !rsvp.submitted ==> wishes == []) &&
      |wishes| <= 1
    }

    /** The cover is rendered while the page is not open. */
    predicate CoverShown()
      reads this
    {
      !isOpen
    }

    /** The main content is rendered while the page is open; never together with the cover. */
    predicate MainShown()
      reads this
      ensures MainShown() <==> !CoverShown()
    {
      isOpen
    }

    /** The page starts gated behind the cover, with no guest wishes. */
    constructor ()
      ensures Valid() && !isOpen && wishes == [] && CoverShown()
    {
      isOpen := false;
      wishes := [];
      rsvp := null;
    }

    /**
     * handleOpen.  Opening mounts the main content with a fresh RSVP form;
     * on an open page it changes nothing.
     */
    method HandleOpen()
      requires Valid()
      modifies this
      ensures Valid() && isOpen && MainShown() && wishes == old(wishes)
      ensures old(isOpen) ==> rsvp == old(rsvp)
      ensures !old(isOpen) ==> fresh(rsvp) && rsvp.form == InitialForm && !rsvp.submitted
    {
      if !isOpen {
        rsvp := new RsvpSection();
        isOpen := true;
      }
    }

    /**
     * handleRSVPSubmit: replaces the wish list by the prepended one.  The page
     * hands it to the RSVP form as its `onSubmit` callback, so it runs only
     * from an accepted submission, through SubmitRsvp, which is what keeps the
     * at-most-one-wish invariant of Valid.
     */
    method HandleRsvpSubmit(data: FormData, today: string)
      modifies this
      ensures wishes == AfterSubmit(old(wishes), data, today)
      ensures isOpen == old(isOpen) && rsvp == old(rsvp)
    {
      if data.wishes != [] {
        var newWish := Wish(data.name, data.wishes, Some(today));
        wishes := [newWish] + wishes;
      }
    }

    /**
     * The RSVP form's submit button, wired to handleRSVPSubmit.  Only a
     * submission that passes the form's guard reaches the page's list.
     */
    method SubmitRsvp(today: string)
      requires Valid() && isOpen && rsvp.FormShown()
      modifies this, rsvp
      ensures Valid() && isOpen && rsvp == old(rsvp)
      ensures rsvp.form == old(rsvp.form)
      ensures rsvp.submitted <==> Decide(old(rsvp.form)).Accepted?
      ensures wishes == if Decide(old(rsvp.form)).Accepted?
                        then AfterSubmit(old(wishes), old(rsvp.form), today)
                        else old(wishes)
    {
      var outcome := rsvp.Submit();
      if outcome.Accepted? {
        HandleRsvpSubmit(outcome.data, today);
      }
    }
  }

  /**
   * A guest's whole visit: open the invitation, enter a name, submit before
   * choosing attendance (refused, the form stays), complete the form and
   * submit again.  Returns the board's cards afterwards.
   */
  method GuestVisit(name: string, message: string, today: string) returns (board: seq<Card>)
    requires name != [] && message != []
    ensures |board| == |SampleWishes| + 1
    ensures board[0].name == name && board[0].message == message
    ensures board[0].dateLine == if today == [] then None else Some(today)
    ensures forall k :: 1 <= k < |board| ==> board[k] == CardOf(SampleWishes[k - 1])
  {
    var page := new IndexPage();
    page.HandleOpen();
    page.rsvp.EditName(name);
    page.SubmitRsvp(today);
    page.rsvp.ChooseAttendance(Yes);
    page.rsvp.ChooseGuests(2);
    page.rsvp.EditWishes(message);
    page.SubmitRsvp(today);
    board := Cards(page.wishes);
  }
}
