/** The photo-booth slideshow behind the visuals
    (src/components/BackgroundImageSlideshow.tsx). A strip of three images is
    shown and hidden on alternate interval ticks; each time it comes back it
    has moved three images further round the list. */
module BackgroundImageSlideshow {
  import opened Text
  import opened Arith

  /** The number of images in one strip. */
  const StripSize: nat := 3

  /** `(prevIndex + 3) % images.length`. */
  function Advance(index: nat, count: nat): (r: nat)
    requires count > 0
    ensures r < count
    ensures (index + StripSize - r) % count == 0
    ensures index < count && StripSize <= count ==>
      r == if index + StripSize < count then index + StripSize else index + StripSize - count
  {
    var n := index + StripSize;
    ModUnique(n - n % count, n / count, 0, count);
    if index < count && StripSize <= count then
      if n < count then ModUnique(n, 0, n, count); n % count
      else ModUnique(n, 1, n - count, count); n % count
    else n % count
  }

  /** The strip starting at `index`: entry `i` is the image `i` places
      further round the list. */
  function Window(images: seq<string>, index: nat): (r: seq<string>)
    requires |images| > 0
    ensures |r| == StripSize
    ensures forall i :: 0 <= i < StripSize ==> r[i] == images[(index + i) % |images|]
  {
    seq(StripSize, i requires 0 <= i < StripSize => images[(index + i) % |images|])
  }

  /** The loop that fills the strip. */
  method BuildWindow(images: seq<string>, currentImageIndex: nat) returns (strip: seq<string>)
    requires |images| > 0
    ensures strip == Window(images, currentImageIndex)
  {
    strip := [];
    var i := 0;
    while i < StripSize
      invariant 0 <= i <= StripSize
      invariant |strip| == i
      invariant forall k :: 0 <= k < i ==> strip[k] == images[(currentImageIndex + k) % |images|]
    {
      var index := (currentImageIndex + i) % |images|;
      strip := strip + [images[index]];
      i := i + 1;
    }
  }

  /** After an advance the new strip continues exactly where the previous one
      ended: successive strips walk round the list three images at a time. */
  lemma NextStripFollows(images: seq<string>, index: nat)
    requires |images| > 0
    ensures forall i :: 0 <= i < StripSize ==>
      Window(images, Advance(index, |images|))[i] == images[(index + StripSize + i) % |images|]
  {
    forall i | 0 <= i < StripSize
      ensures Window(images, Advance(index, |images|))[i] == images[(index + StripSize + i) % |images|]
    {
      ModAddLeft(index + StripSize, i, |images|);
    }
  }

  /** With a single image the strip repeats it three times. */
  lemma SingleImageStrip(images: seq<string>, index: nat)
    requires |images| == 1
    ensures Window(images, index) == [images[0], images[0], images[0]]
  {
  }

  /** Whether a path gets the BSKY polaroid frame: its lower-cased form
      contains "bsky". */
  function IsBsky(path: string): (r: bool)
    ensures r <==> exists k :: OccursAt(ToLower(path), "bsky", k)
  {
    Contains(ToLower(path), "bsky")
  }

  /** The BSKY test ignores case: lower-casing the path first changes nothing. */
  lemma BskyIgnoresCase(path: string)
    ensures IsBsky(ToLower(path)) == IsBsky(path)
  {
    assert ToLower(ToLower(path)) == ToLower(path) by {
      forall k | 0 <= k < |path|
        ensures ToLower(ToLower(path))[k] == ToLower(path)[k]
      {
        LowerIdempotent(path[k]);
      }
    }
  }

  lemma LowerIdempotent(ch: char)
    ensures LowerChar(LowerChar(ch)) == LowerChar(ch)
  {
  }

  /** The component's state: the image list, the strip's first index, the
      fade flag, the strip itself, and the interval's closure flag
      `isShowing` (meaningful only while the interval runs). */
  class Slideshow {
    const images: seq<string>
    var currentImageIndex: nat
    var isTransitioning: bool
    var photoboothImages: seq<string>
    var isShowing: bool
    var timerRunning: bool

    /** The strip index stays inside the list; a timer runs only with images. */
    predicate Valid()
      reads this
    {
      && (|images| > 0 ==> currentImageIndex < |images|)
      && (timerRunning ==> |images| > 0)
    }

    /** Mounting loads the fixed image list. */
    constructor (imageList: seq<string>)
      ensures Valid()
      ensures images == imageList && currentImageIndex == 0 && !isTransitioning
      ensures photoboothImages == [] && !timerRunning
    {
      images := imageList;
      currentImageIndex, isTransitioning, photoboothImages := 0, false, [];
      isShowing, timerRunning := true, false;
    }

    /** The effect on the image count: with no images no interval starts;
        otherwise it starts in the showing phase. */
    method StartTimer()
      requires Valid()
      modifies this
      ensures Valid()
      ensures timerRunning <==> |images| > 0
      ensures |images| > 0 ==> isShowing
      ensures currentImageIndex == old(currentImageIndex) && isTransitioning == old(isTransitioning)
      ensures photoboothImages == old(photoboothImages)
    {
      if |images| == 0 {
        return;
      }
      isShowing := true;
      timerRunning := true;
    }

    /** An interval tick: a showing strip starts fading out; a hidden one
        comes back advanced by three images. The phases alternate. */
    method IntervalTick()
      requires Valid()
      modifies this
      ensures Valid()
      ensures timerRunning == old(timerRunning) && photoboothImages == old(photoboothImages)
      ensures !timerRunning ==>
        isShowing == old(isShowing) && currentImageIndex == old(currentImageIndex) && isTransitioning == old(isTransitioning)
      ensures timerRunning ==> isShowing == !old(isShowing)
      ensures timerRunning && old(isShowing) ==> isTransitioning && currentImageIndex == old(currentImageIndex)
      ensures timerRunning && !old(isShowing) ==>
        !isTransitioning && currentImageIndex == Advance(old(currentImageIndex), |images|)
    {
      if !timerRunning {
        return;
      }
      if isShowing {
        isTransitioning := true;
        isShowing := false;
      } else {
        currentImageIndex := (currentImageIndex + StripSize) % |images|;
        isTransitioning := false;
        isShowing := true;
      }
    }

    /** The 500 ms fade-out timeout. */
    method FadeOutDone()
      modifies this
      ensures !isTransitioning
      ensures currentImageIndex == old(currentImageIndex) && photoboothImages == old(photoboothImages)
      ensures isShowing == old(isShowing) && timerRunning == old(timerRunning)
    {
      isTransitioning := false;
    }

    /** The effect on the strip index: rebuild the strip (nothing without
        images). */
    method UpdateStrip()
      requires Valid()
      modifies this
      ensures Valid()
      ensures |images| == 0 ==> photoboothImages == old(photoboothImages)
      ensures |images| > 0 ==> photoboothImages == Window(images, currentImageIndex)
      ensures currentImageIndex == old(currentImageIndex) && isTransitioning == old(isTransitioning)
      ensures isShowing == old(isShowing) && timerRunning == old(timerRunning)
    {
      if |images| == 0 {
        return;
      }
      photoboothImages := BuildWindow(images, currentImageIndex);
    }

    /** Whether anything is rendered. */
    function Rendered(): (r: bool)
      reads this
      ensures r ==> |images| > 0
      ensures |images| == 0 ==> !r
    {
      |images| != 0 && |photoboothImages| != 0
    }
  }
}
