# Wedding invitation page: a verified model of its state logic

The site is a single-page wedding invitation. A cover gates the page, and opening it reveals
the content sections. Four pieces of the page keep state that can be stated exactly, and this
project models each of them in Dafny and proves what the page promises about it:

- **Gallery lightbox** (`gallery.dfy`, module `Gallery`). The lightbox is closed or shows image
  `i` of six fixed photos. The arrows step the index with wrap-around at both ends.
  `Gallery.Lightbox` is the component state. The index arithmetic is pure functions with lemmas:
  - every index stays in bounds;
  - next and previous undo each other;
  - `n` presses return to the start;
  - `k` presses of previous undo `k` presses of next.
- **RSVP form** (`rsvp.dfy`, module `Rsvp`). `Rsvp.RsvpSection` holds the form record and the
  `submitted` flag. Each edit handler replaces exactly its own field. `Submit` either rejects the
  form or hands it unchanged to the parent. With an empty name, the browser's check of the
  `required` name input stops the submit: no handler runs and nothing changes. With a name but
  no attendance choice, the error notification fires and nothing changes. On a complete form,
  the success notification fires and `submitted` becomes true. These are the three cases of
  `Rsvp.SubmitOutcome`.
- **Page gate and wish list** (`index_page.dfy`, module `Invitation`). `Invitation.IndexPage` has
  the `isOpen` gate. The cover and the main content are never shown together. Opening mounts a
  fresh RSVP form. The page also holds the wish list that `handleRSVPSubmit` prepends to.
  `SubmitRsvp` composes the form's guard with the page's callback. The object invariant records
  a consequence of that composition: the form disappears after one accepted submission, so a page
  load holds at most one guest wish.
- **Wishes board** (`wishes.dfy`, module `Wishes`). This part is pure. The board shows the guest
  wishes first, then the four fixed sample wishes, one card each. A card's date line appears only for a
  present, non-empty date. The samples mean the "be the first" notice never appears.

The date stamped on a new wish comes from the clock and the browser locale. It is the opaque
parameter `today`.


## Model

| member | source | states |
|---|---|---|
| `Gallery.NextIndex` | src/components/wedding/GallerySection.tsx:58-61 | next stays in `[0, n)`, moves `i` to `i+1`, and wraps from `n-1` to 0 |
| `Gallery.PrevIndex` | src/components/wedding/GallerySection.tsx:54-57 | previous stays in `[0, n)`, moves `i` to `i-1`, and wraps from 0 to `n-1` |
| `Gallery.Forward` | src/components/wedding/GallerySection.tsx:58-61 | goToNext's updater keeps a closed lightbox closed; an open one stays in bounds, and previous leads back to where it was |
| `Gallery.Backward` | src/components/wedding/GallerySection.tsx:54-57 | goToPrevious's updater keeps a closed lightbox closed; an open one stays in bounds, and next leads back to where it was |
| `Gallery.StepsUndo` | src/components/wedding/GallerySection.tsx:54-61 | next then previous, and previous then next, restore the lightbox state (closed or open) |
| `Gallery.NextTimes` | src/components/wedding/GallerySection.tsx:58-61 | any number of next presses keeps the index in bounds |
| `Gallery.PrevTimes` | src/components/wedding/GallerySection.tsx:54-57 | any number of previous presses keeps the index in bounds |
| `Gallery.NextTimesLap` | src/components/wedding/GallerySection.tsx:58-61 | within one lap, `k` next presses advance the index by `k` modulo `n` |
| `Gallery.PrevTimesLap` | src/components/wedding/GallerySection.tsx:54-57 | within one lap, `k` previous presses move the index back by `k` modulo `n` |
| `Gallery.FullCycle` | src/components/wedding/GallerySection.tsx:54-61 | `n` presses of next, or of previous, show the starting image again |
| `Gallery.PrevTimesUndoesNextTimes` | src/components/wedding/GallerySection.tsx:54-61 | `k` previous presses undo `k` next presses, for every `k` |
| `Gallery.Lightbox.constructor` | src/components/wedding/GallerySection.tsx:46 | the lightbox starts closed |
| `Gallery.Lightbox.Open` | src/components/wedding/GallerySection.tsx:52 | clicking grid tile `index` shows that image; the grid offers only indices of the list (lines 82-91) |
| `Gallery.Lightbox.Close` | src/components/wedding/GallerySection.tsx:53 | closing always yields the closed state, so closing twice is closing once |
| `Gallery.Lightbox.Previous` | src/components/wedding/GallerySection.tsx:54-57 | the state becomes goToPrevious's updater applied to the old state, and stays in bounds |
| `Gallery.Lightbox.Next` | src/components/wedding/GallerySection.tsx:58-61 | the state becomes goToNext's updater applied to the old state, and stays in bounds |
| `Gallery.Lightbox.Shown` | src/components/wedding/GallerySection.tsx:116-166 | the overlay renders nothing while closed, and otherwise the in-bounds image `galleryImages[selectedIndex]` |
| `Rsvp.Decide` | src/components/wedding/RSVPSection.tsx:33-40 | an empty name is blocked by the browser's `required` check (line 85) before the handler runs; a name without attendance is rejected with the error notification; otherwise the callback receives the form unmodified |
| `Rsvp.RsvpSection.constructor` | src/components/wedding/RSVPSection.tsx:18-24 | the form starts as name "", attendance unset, 1 guest, wishes "", not submitted |
| `Rsvp.RsvpSection.EditName` | src/components/wedding/RSVPSection.tsx:80-81 | only the name changes |
| `Rsvp.RsvpSection.ChooseAttendance` | src/components/wedding/RSVPSection.tsx:98-121 | only attendance changes, and only to "yes" or "no" |
| `Rsvp.RsvpSection.ChooseGuests` | src/components/wedding/RSVPSection.tsx:129-149 | only the guest count changes, to one of 1..5; it is offered only after "yes" |
| `Rsvp.RsvpSection.EditWishes` | src/components/wedding/RSVPSection.tsx:160-161 | only the wishes text changes |
| `Rsvp.RsvpSection.Submit` | src/components/wedding/RSVPSection.tsx:31-46 | the form is never changed; a blocked or rejected submit changes nothing and the form stays shown; an accepted one passes the exact form and sets `submitted` |
| `Wishes.AllWishes` | src/components/wedding/WishesSection.tsx:47 | the board lists the guest wishes in order, then the four samples in order; its length is the guest count plus 4 |
| `Wishes.DateLine` | src/components/wedding/WishesSection.tsx:83-85 | a card shows a date line exactly when the wish has a non-empty date, and then shows that date |
| `Wishes.Cards` | src/components/wedding/WishesSection.tsx:67-89 | one card per displayed wish, in order, with that wish's message, name and conditional date line |
| `Wishes.EmptyNoticeNeverShown` | src/components/wedding/WishesSection.tsx:92 | the "be the first" notice needs an empty board, and the samples mean that never happens |
| `Invitation.AfterSubmit` | src/pages/Index.tsx:34-44 | non-empty wishes text adds exactly one wish at the front, with the name, text and date verbatim; empty text leaves the list unchanged; earlier wishes keep their order behind it |
| `Invitation.AttendanceNotRecorded` | src/pages/Index.tsx:28-45 | the new list depends only on the name and wishes text, never on attendance or guest count |
| `Invitation.LatestWishShownFirst` | src/pages/Index.tsx:44 | after a submission with wishes text, the board's first card is that wish |
| `Invitation.IndexPage.constructor` | src/pages/Index.tsx:21-22 | the page starts gated behind the cover with an empty wish list |
| `Invitation.IndexPage.MainShown` | src/pages/Index.tsx:59-64 | the main content is shown exactly when the cover is not |
| `Invitation.IndexPage.HandleOpen` | src/pages/Index.tsx:24-26 | opening sets the gate and mounts a fresh RSVP form; on an open page it changes nothing |
| `Invitation.IndexPage.HandleRsvpSubmit` | src/pages/Index.tsx:28-46 | the wish list becomes the prepended list; the gate is unchanged; it runs only as the form's callback, through `SubmitRsvp` |
| `Invitation.IndexPage.SubmitRsvp` | src/pages/Index.tsx:166 | the list changes only for a submission the form accepts, and then with that form's data; the form stays shown, for correction and resubmission, exactly when it was not accepted; a page load keeps at most one guest wish |
| `Invitation.GuestVisit` | src/pages/Index.tsx:163-172 | after open, a refused submit, completing the form and resubmitting, the board holds the guest's wish first, followed by the four sample cards in order |

## Left out

- Animations (framer-motion), viewport observers (`useInView`) and styling are pure presentation.
- Notifications (`toast`) appear only as the `Rejected` and `Accepted` cases of
  `Rsvp.SubmitOutcome`.
- Of the browser's form validation, only the `required` name input is modelled, as the `Blocked`
  case of `Rsvp.SubmitOutcome`; the browser's own validation message is not.
- `preventDefault` and `stopPropagation` are left out. The model treats each click as exactly one
  handler call, as `stopPropagation` arranges for the arrow buttons.
- Date formatting (`toLocaleDateString`) depends on the clock and locale. It is the opaque
  parameter `today`.
- The cover's 800 ms delay before `onOpen` (src/components/wedding/CoverSection.tsx) is timing
  only. The model covers it by the `isOpen` gate.
- src/components/wedding/GiftSection.tsx is not part of this model. It makes an asynchronous
  clipboard call, with a timer that resets its "copied" flag.
- src/components/wedding/EventDetailsSection.tsx is not part of this model. It builds calendar
  and map URLs through library calls, and opens windows.
- LoveStorySection.tsx, ProfileSection.tsx, NewsTicker.tsx and Footer.tsx are not part of this
  model. They hold static content with no logic.
- The image list is modelled with its literal content. The arithmetic lemmas are stated for any
  list size `n`.
- Rsvp.RsvpSection.EditName: edit handlers require the form to be shown, because they exist only
  while the form is rendered (src/components/wedding/RSVPSection.tsx:71). The same holds for the
  other edit handlers and for `Submit`.
