/**
 * The gallery viewer of ImageModal.jsx: a current index over a fixed list of
 * images with wrap-around previous/next, direct jumps from the thumbnails, a
 * per-slide failure flag set that only grows, and the "all slides failed"
 * view that hides the controls.
 */
module Gallery {

  /** One slide: `{ src, alt, isNoImage }`. */
  datatype GalleryImage = GalleryImage(src: string, alt: string, isNoImage: bool)

  /** `prev === 0 ? images.length - 1 : prev - 1`: one step back, wrapping from the first slide to the last. */
  function Previous(i: int, n: int): (r: int)
    ensures 0 <= i < n ==> 0 <= r < n && r == (i + n - 1) % n
  {
    if i == 0 then n - 1 else i - 1
  }

  /** `prev === images.length - 1 ? 0 : prev + 1`: one step on, wrapping from the last slide to the first. */
  function Next(i: int, n: int): (r: int)
    ensures 0 <= i < n ==> 0 <= r < n && r == (i + 1) % n
  {
    if i == n - 1 then 0 else i + 1
  }

  /** `images.every((_, index) => imageLoadError[index])` over `n` slides. */
  function AllFailed(n: nat, flags: set<int>): (r: bool)
    ensures r <==> forall i :: 0 <= i < n ==> i in flags
  {
    n == 0 || (AllFailed(n - 1, flags) && n - 1 in flags)
  }

  /** What the viewer shows: one full-area placeholder, or the current slide (a placeholder if it failed) with controls. */
  datatype View = FullPlaceholder | Slide(index: int, placeholder: bool)

  class ImageModal {
    const images: seq<GalleryImage>
    var currentIndex: int
    /** The slides whose image failed to load (`imageLoadError[index] === true`). */
    var imageLoadError: set<int>

    ghost predicate Valid()
      reads this
    {
      0 <= currentIndex < |images|
    }

    /** Opened on `images` at `initialIndex`, with no slide failed yet. */
    constructor (images: seq<GalleryImage>, initialIndex: int)
      requires 0 <= initialIndex < |images|
      ensures Valid()
      ensures this.images == images && currentIndex == initialIndex && imageLoadError == {}
    {
      this.images := images;
      currentIndex := initialIndex;
      imageLoadError := {};
    }

    /** `allImagesFailed`. */
    predicate AllImagesFailed()
      reads this
      ensures AllImagesFailed() <==> forall i :: 0 <= i < |images| ==> i in imageLoadError
    {
      AllFailed(|images|, imageLoadError)
    }

    /** `goToPrevious`: the index moves back one, wrapping; the failure flags are untouched. */
    method GoToPrevious()
      requires Valid()
      modifies this`currentIndex
      ensures Valid()
      ensures currentIndex == Previous(old(currentIndex), |images|)
      ensures imageLoadError == old(imageLoadError)
    {
      currentIndex := Previous(currentIndex, |images|);
    }

    /** `goToNext`: the index moves on one, wrapping; the failure flags are untouched. */
    method GoToNext()
      requires Valid()
      modifies this`currentIndex
      ensures Valid()
      ensures currentIndex == Next(old(currentIndex), |images|)
      ensures imageLoadError == old(imageLoadError)
    {
      currentIndex := Next(currentIndex, |images|);
    }

    /** `goToSlide`: called from the thumbnail of slide `index`, so `index` is a slide. */
    method GoToSlide(index: int)
      requires Valid() && 0 <= index < |images|
      modifies this`currentIndex
      ensures Valid()
      ensures currentIndex == index
      ensures imageLoadError == old(imageLoadError)
    {
      currentIndex := index;
    }

    /**
     * `handleImageError`: flags slide `index` and no other; a flag is never
     * cleared, so once every slide has failed that stays so.
     */
    method HandleImageError(index: int)
      requires Valid()
      modifies this`imageLoadError
      ensures Valid()
      ensures imageLoadError == old(imageLoadError) + {index}
      ensures currentIndex == old(currentIndex)
      ensures old(AllImagesFailed()) ==> AllImagesFailed()
    {
      imageLoadError := imageLoadError + {index};
    }

    /** `handleBackdropClick`: `onClose` is called only for a click on the backdrop element itself. */
    method HandleBackdropClick<Element(==)>(target: Element, currentTarget: Element) returns (callsClose: bool)
      ensures callsClose <==> target == currentTarget
    {
      callsClose := target == currentTarget;
    }

    /**
     * The rendered state: once every slide has failed, one full-area
     * placeholder (no arrows, counter, caption or thumbnails) whatever the
     * index; otherwise the current slide, shown as a placeholder exactly when
     * its own flag is set.
     */
    function CurrentView(): (v: View)
      reads this
      ensures v == FullPlaceholder <==> forall i :: 0 <= i < |images| ==> i in imageLoadError
      ensures v.Slide? ==> v.index == currentIndex && (v.placeholder <==> currentIndex in imageLoadError)
    {
      if AllImagesFailed() then FullPlaceholder else Slide(currentIndex, currentIndex in imageLoadError)
    }
  }

  // ---------------------------------------------------------------- lemmas

  /** Next undoes Previous and Previous undoes Next, on every slide. */
  lemma NavigationRoundTrip(i: int, n: int)
    requires 0 <= i < n
    ensures Next(Previous(i, n), n) == i
    ensures Previous(Next(i, n), n) == i
  {
  }

  /** With two slides, both arrows toggle between slide 0 and slide 1. */
  lemma TwoSlidesToggle(i: int)
    requires 0 <= i < 2
    ensures Previous(i, 2) == 1 - i && Next(i, 2) == 1 - i
  {
  }

  /** More flags never make "all slides failed" false: the predicate is monotone in the flag set. */
  lemma AllFailedMonotone(n: nat, flags: set<int>, more: set<int>)
    requires flags <= more && AllFailed(n, flags)
    ensures AllFailed(n, more)
  {
  }
}
