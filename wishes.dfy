/**
 * The guests' wishes board (src/components/wedding/WishesSection.tsx).
 *
 * Stateless: it shows the wishes handed down by the page followed by four
 * fixed sample wishes, one card each.
 */
module Wishes {
  import opened Wrappers

  /** A guest's wish; the date is optional. */
  datatype Wish = Wish(name: string, message: string, date: Option<string>)

  /** One rendered card: the quoted message, the signature, and a date line if any. */
  datatype Card = Card(message: string, name: string, dateLine: Option<string>)

  /** The seed wishes always shown after the guests' own. */
  const SampleWishes: seq<Wish> := [
    Wish("Amanda & Budi",
         "Semoga pernikahan ini membawa kebahagiaan selamanya. Semoga perjalanan kalian berdua dipenuhi momen-momen indah!",
         Some("15 Januari 2025")),
    Wish("Keluarga Santoso",
         "Selamat menempuh hidup baru! Semoga kisah cinta kalian terus menginspirasi semua orang di sekitar.",
         Some("12 Januari 2025")),
    Wish("Om Hendra",
         "Sangat bahagia untuk kalian berdua! Semoga rumah tangga kalian dipenuhi cinta dan kegembiraan.",
         Some("10 Januari 2025")),
    Wish("Tante Rina",
         "Dua jiwa indah menjadi satu. Semoga pernikahan kalian seindah kalian berdua!",
         Some("8 Januari 2025"))
  ]

  /**
   * `allWishes`: the guests' wishes, in their order, then every sample wish,
   * in its order.
   */
  function AllWishes(wishes: seq<Wish>): (r: seq<Wish>)
    ensures |r| == |wishes| + 4
    ensures forall k :: 0 <= k < |wishes| ==> r[k] == wishes[k]
    ensures forall k :: 0 <= k < |SampleWishes| ==> r[|wishes| + k] == SampleWishes[k]
  {
    wishes + SampleWishes
  }

  /**
   * The date line of a card.  `wish.date && …` renders it only for a present
   * date that is not the empty string.
   */
  function DateLine(w: Wish): (r: Option<string>)
    ensures r.Some? <==> w.date.Some? && w.date.value != []
    ensures r.Some? ==> r == w.date
  {
    match w.date
    case Some(d) => if d == [] then None else Some(d)
    case None => None
  }

  function CardOf(w: Wish): Card {
    Card(w.message, w.name, DateLine(w))
  }

  /** The cards of the board, one per wish of `allWishes`, in order. */
  function Cards(wishes: seq<Wish>): (r: seq<Card>)
    ensures |r| == |wishes| + 4
    ensures forall k :: 0 <= k < |r| ==>
      r[k].message == AllWishes(wishes)[k].message && r[k].name == AllWishes(wishes)[k].name &&
      r[k].dateLine == DateLine(AllWishes(wishes)[k])
  {
    var all := AllWishes(wishes);
    seq(|all|, k requires 0 <= k < |all| => CardOf(all[k]))
  }

  /** The "be the first to send a wish" notice, shown when `allWishes` is empty. */
  predicate EmptyNoticeShown(wishes: seq<Wish>) {
    |AllWishes(wishes)| == 0
  }

  /** The samples are never absent, so the empty-board notice never shows. */
  lemma EmptyNoticeNeverShown(wishes: seq<Wish>)
    ensures !EmptyNoticeShown(wishes)
    ensures |Cards(wishes)| >= |SampleWishes|
  {
  }
}
