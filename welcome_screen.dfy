/** src/components/WelcomeScreen.tsx: the start screen's carousel of three destinations,
    which advances on a timer until the user navigates by hand. */
module WelcomeScreen {
  import Images

  datatype Slide = Slide(name: string, country: string, image: string, description: string)

  function ParisSlide(): Slide {
    Slide("Paris", "France", Images.UnsplashImage("photo-" + "1502602898657-" + "3e91760cbb34"),
      "The City " + "of Light")
  }

  function TokyoSlide(): Slide {
    Slide("Tokyo", "Japan", Images.UnsplashImage("photo-" + "1503899036084-" + "c55cdd92da26"),
      "Where " + "tradition " + "meets future")
  }

  function BaliSlide(): Slide {
    Slide("Bali", "Indonesia", Images.UnsplashImage("photo-" + "1537996194471-" + "e657df975ab4"),
      "Tropical " + "paradise")
  }

  /** The module-level `destinations` array. */
  function Destinations(): (r: seq<Slide>)
    ensures |r| == SlideCount
  {
    [ParisSlide(), TokyoSlide(), BaliSlide()]
  }

  /** The slides in their order on screen. */
  lemma SlidesInOrder()
    ensures Destinations()[0].name == "Paris" && Destinations()[0].country == "France"
    ensures Destinations()[1].name == "Tokyo" && Destinations()[1].country == "Japan"
    ensures Destinations()[2].name == "Bali" && Destinations()[2].country == "Indonesia"
  {
  }

  /** `destinations.length`. */
  const SlideCount := 3

  // ---------------------------------------------------------------------------
  // Index arithmetic

  /** `(prev + 1) % destinations.length`. */
  function NextIndex(i: nat): (r: nat)
    ensures r < SlideCount
  {
    (i + 1) % SlideCount
  }

  /** `(prev - 1 + destinations.length) % destinations.length`; the operand is never
      negative, so JavaScript's remainder and Dafny's agree. */
  function PreviousIndex(i: nat): (r: nat)
    requires i < SlideCount
    ensures r < SlideCount
  {
    (i - 1 + SlideCount) % SlideCount
  }

  /** Previous undoes next and next undoes previous. */
  lemma PreviousUndoesNext(i: nat)
    requires i < SlideCount
    ensures PreviousIndex(NextIndex(i)) == i
    ensures NextIndex(PreviousIndex(i)) == i
  {
  }

  /** Next steps through every slide: 0, 1, 2 and back to 0. */
  lemma NextCycles(i: nat)
    requires i < SlideCount
    ensures NextIndex(NextIndex(NextIndex(i))) == i
    ensures NextIndex(i) != i && NextIndex(NextIndex(i)) != i
  {
  }

  /** `n` timer ticks from slide `i`. */
  function Advance(i: nat, n: nat): (r: nat)
    requires i < SlideCount
    ensures r < SlideCount
  {
    if n == 0 then i else NextIndex(Advance(i, n - 1))
  }

  /** `n` ticks land on slide `(i + n) % 3`. */
  lemma {:induction false} AdvanceIsModular(i: nat, n: nat)
    requires i < SlideCount
    ensures Advance(i, n) == (i + n) % SlideCount
  {
    if n > 0 {
      AdvanceIsModular(i, n - 1);
    }
  }

  // ---------------------------------------------------------------------------
  // The component's state

  class Carousel {
    var currentIndex: nat
    var isAutoPlaying: bool

    predicate Valid()
      reads this
    {
      currentIndex < SlideCount
    }

    constructor ()
      ensures Valid() && currentIndex == 0 && isAutoPlaying
    {
      currentIndex := 0;
      isAutoPlaying := true;
    }

    /** The slide on screen: its image, name, country and description. */
    function Current(): Slide
      requires Valid()
      reads this
    {
      Destinations()[currentIndex]
    }

    /** One firing of the five-second interval. The effect only installs the interval
        while auto-playing and clears it when that flag goes off, so a tick advances the
        slide exactly while the carousel is auto-playing. */
    method Tick()
      requires Valid()
      modifies this
      ensures Valid() && isAutoPlaying == old(isAutoPlaying)
      ensures currentIndex == if old(isAutoPlaying) then NextIndex(old(currentIndex)) else old(currentIndex)
    {
      if !isAutoPlaying {
        return;
      }
      currentIndex := (currentIndex + 1) % SlideCount;
    }

    /** `handlePrevious`: auto-play stops and the previous slide shows. */
    method Previous()
      requires Valid()
      modifies this
      ensures Valid() && !isAutoPlaying && currentIndex == PreviousIndex(old(currentIndex))
    {
      isAutoPlaying := false;
      currentIndex := (currentIndex - 1 + SlideCount) % SlideCount;
    }

    /** `handleNext`: auto-play stops and the next slide shows. */
    method Next()
      requires Valid()
      modifies this
      ensures Valid() && !isAutoPlaying && currentIndex == NextIndex(old(currentIndex))
    {
      isAutoPlaying := false;
      currentIndex := (currentIndex + 1) % SlideCount;
    }

    /** A navigation dot's click: one dot is rendered per slide, and clicking it stops
        auto-play and shows that slide. */
    method Dot(index: nat)
      requires index < SlideCount
      modifies this
      ensures Valid() && !isAutoPlaying && currentIndex == index
    {
      isAutoPlaying := false;
      currentIndex := index;
    }
  }
}
