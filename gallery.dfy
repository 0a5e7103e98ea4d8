/**
 * The photo gallery and its lightbox (src/components/wedding/GallerySection.tsx).
 *
 * The lightbox state is `selectedIndex: number | null`: closed, or showing
 * the image at an index of the fixed list `galleryImages`.  The arrows move
 * the index one step with wrap-around at both ends.
 */
module Gallery {
  import opened Wrappers

  datatype Image = Image(src: string, alt: string, caption: Option<string>)

  /** The fixed photo list, in grid order. */
  const Images: seq<Image> := [
    Image("https://images.unsplash.com/photo-1519741497674-611481863552?w=800",
          "Potret pasangan", Some("Musim Panas 2023")),
    Image("https://images.unsplash.com/photo-1529634806980-85c3dd6d34ac?w=800",
          "Foto pertunangan", Some("Lamaran")),
    Image("https://images.unsplash.com/photo-1591604466107-ec97de577aff?w=800",
          "Bersama", Some("Petualangan kami")),
    Image("https://images.unsplash.com/photo-1522673607200-164d1b6ce486?w=800",
          "Momen romantis", Some("Musim Semi 2024")),
    Image("https://images.unsplash.com/photo-1583939003579-730e3918a45a?w=800",
          "Foto candid", Some("Di pantai")),
    Image("https://images.unsplash.com/photo-1544078751-58fee2d8a03b?w=800",
          "Bersama selamanya", Some("Selamanya dimulai"))
  ]

  // ---------------------------------------------------------------------------
  // Index arithmetic over a list of n images.  The source writes
  // `(prev + 1) % n` and `(prev - 1 + n) % n`; both dividends are
  // non-negative, so Dafny's Euclidean `%` agrees with JavaScript's.
  // ---------------------------------------------------------------------------

  /** The index goToNext moves to: one step right, wrapping from the last image to the first. */
  function NextIndex(i: nat, n: nat): (r: nat)
    requires i < n
    ensures r < n
    ensures i + 1 < n ==> r == i + 1
    ensures i + 1 == n ==> r == 0
  {
    (i + 1) % n
  }

  /** The index goToPrevious moves to: one step left, wrapping from the first image to the last. */
  function PrevIndex(i: nat, n: nat): (r: nat)
    requires i < n
    ensures r < n
    ensures 0 < i ==> r == i - 1
    ensures i == 0 ==> r == n - 1
  {
    (i - 1 + n) % n
  }

  /** The state updater of goToNext: a closed lightbox stays closed. */
  function Forward(sel: Option<nat>, n: nat): (r: Option<nat>)
    requires sel.Some? ==> sel.value < n
    ensures r.Some? <==> sel.Some?
    ensures r.Some? ==> r.value < n && PrevIndex(r.value, n) == sel.value
  {
    match sel
    case None => None
    case Some(i) => Some(NextIndex(i, n))
  }

  /** The state updater of goToPrevious: a closed lightbox stays closed. */
  function Backward(sel: Option<nat>, n: nat): (r: Option<nat>)
    requires sel.Some? ==> sel.value < n
    ensures r.Some? <==> sel.Some?
    ensures r.Some? ==> r.value < n && NextIndex(r.value, n) == sel.value
  {
    match sel
    case None => None
    case Some(i) => Some(PrevIndex(i, n))
  }

  /** Next then previous, and previous then next, return to where the lightbox was. */
  lemma StepsUndo(sel: Option<nat>, n: nat)
    requires sel.Some? ==> sel.value < n
    ensures Backward(Forward(sel, n), n) == sel
    ensures Forward(Backward(sel, n), n) == sel
  {
  }

  /** The index after pressing "next" k times. */
  function NextTimes(i: nat, n: nat, k: nat): (r: nat)
    requires i < n
    ensures r < n
    decreases k
  {
    if k == 0 then i else NextIndex(NextTimes(i, n, k - 1), n)
  }

  /** The index after pressing "previous" k times. */
  function PrevTimes(i: nat, n: nat, k: nat): (r: nat)
    requires i < n
    ensures r < n
    decreases k
  {
    if k == 0 then i else PrevTimes(PrevIndex(i, n), n, k - 1)
  }

  /** Within one lap, k presses of "next" advance the index by k modulo n. */
  lemma {:induction false} NextTimesLap(i: nat, n: nat, k: nat)
    requires i < n && k <= n
    ensures NextTimes(i, n, k) == if i + k < n then i + k else i + k - n
  {
    if k > 0 {
      NextTimesLap(i, n, k - 1);
    }
  }

  /** Within one lap, k presses of "previous" move the index back by k modulo n. */
  lemma {:induction false} PrevTimesLap(i: nat, n: nat, k: nat)
    requires i < n && k <= n
    ensures PrevTimes(i, n, k) == if k <= i then i - k else i + n - k
    decreases k
  {
    if k > 0 {
      PrevTimesLap(PrevIndex(i, n), n, k - 1);
    }
  }

  /** Pressing "next" n times, or "previous" n times, shows the starting image again. */
  lemma FullCycle(i: nat, n: nat)
    requires i < n
    ensures NextTimes(i, n, n) == i
    ensures PrevTimes(i, n, n) == i
  {
    NextTimesLap(i, n, n);
    PrevTimesLap(i, n, n);
  }

  /** k presses of "previous" undo k presses of "next", for any k. */
  lemma {:induction false} PrevTimesUndoesNextTimes(i: nat, n: nat, k: nat)
    requires i < n
    ensures PrevTimes(NextTimes(i, n, k), n, k) == i
  {
    if k > 0 {
      PrevTimesUndoesNextTimes(i, n, k - 1);
    }
  }

  /** The lightbox of the gallery: the `selectedIndex` state and its handlers. */
  class Lightbox {
    var selected: Option<nat>

    /** While open, the index is a valid position in the image list. */
    ghost predicate Valid()
      reads this
    {
      selected.Some? ==> selected.value < |Images|
    }

    /** The lightbox starts closed. */
    constructor ()
      ensures Valid() && selected == None
    {
      selected := None;
    }

    /** openLightbox: clicking grid tile `index` (the grid renders exactly the indices of Images). */
    method Open(index: nat)
      requires index < |Images|
      modifies this
      ensures Valid() && selected == Some(index)
    {
      selected := Some(index);
    }

    /** closeLightbox: from any state, the lightbox becomes closed. */
    method Close()
      modifies this
      ensures Valid() && selected == None
    {
      selected := None;
    }

    /** goToPrevious. */
    method Previous()
      requires Valid()
      modifies this
      ensures Valid() && selected == Backward(old(selected), |Images|)
    {
      selected := Backward(selected, |Images|);
    }

    /** goToNext. */
    method Next()
      requires Valid()
      modifies this
      ensures Valid() && selected == Forward(old(selected), |Images|)
    {
      selected := Forward(selected, |Images|);
    }

    /** The image the overlay renders: nothing while closed, else `galleryImages[selectedIndex]`. */
    function Shown(): (img: Option<Image>)
      reads this
      requires Valid()
      ensures img.None? <==> selected.None?
      ensures img.Some? ==> img.value == Images[selected.value]
    {
      match selected
      case None => None
      case Some(i) => Some(Images[i])
    }
  }
}
