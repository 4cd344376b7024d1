/** The "typed" reveal of a guide text. DestinationSelector, AccommodationSelector and
    TravelPlanner each run the same loop: reset the displayed text to '', then on every
    30 ms interval tick append the next character of the guide, and on the first tick
    after the last character clear the interval and switch the typing flag off.
    A tick of the interval is a call of `Tick`. */
module TypedReveal {

  class Reveal {
    /** The full text the interval closure was started with. */
    var guide: string
    /** `displayedGuide`. */
    var displayed: string
    /** The closure's `currentIndex`. */
    var index: nat
    /** `isTyping`, as far as the reveal sets it. */
    var typing: bool

    ghost predicate Valid()
      reads this
    {
      index <= |guide| && displayed == guide[..index]
    }

    constructor ()
      ensures Valid() && guide == "" && displayed == "" && index == 0 && !typing
    {
      guide, displayed, index, typing := "", "", 0, false;
    }

    /** `setIsTyping(true)`, `setDisplayedGuide('')`, `currentIndex = 0` and a new interval. */
    method Start(text: string)
      modifies this
      ensures Valid() && guide == text && displayed == "" && index == 0 && typing
    {
      guide, displayed, index, typing := text, "", 0, true;
    }

    /** One interval tick: append `guide[index]` while characters remain, otherwise stop. */
    method Tick()
      requires Valid()
      modifies this
      ensures Valid() && guide == old(guide)
      ensures old(index) < |guide| ==>
        index == old(index) + 1 && displayed == old(displayed) + [guide[old(index)]] &&
        typing == old(typing)
      ensures old(index) == |guide| ==>
        index == old(index) && displayed == old(displayed) && !typing
    {
      if index < |guide| {
        displayed := displayed + [guide[index]];
        index := index + 1;
      } else {
        typing := false;
      }
    }

    /** The reveal is over: the whole guide is on screen. */
    predicate Done()
      reads this
    {
      index == |guide|
    }
  }

  /** Runs one reveal of `text` tick by tick until its interval clears, and returns the
      displayed text after each tick that added a character: one frame per character,
      each one character longer than the one before, the last one the whole text. */
  method Frames(text: string) returns (frames: seq<string>)
    ensures |frames| == |text|
    ensures forall k :: 0 <= k < |frames| ==> frames[k] == text[..k + 1]
  {
    var r := new Reveal();
    r.Start(text);
    frames := [];
    while r.typing
      invariant r.Valid() && r.guide == text
      invariant |frames| == r.index
      invariant forall k :: 0 <= k < |frames| ==> frames[k] == text[..k + 1]
      invariant !r.typing ==> r.index == |text|
      decreases |text| - r.index, r.typing
    {
      var before := r.index;
      r.Tick();
      if r.index > before {
        frames := frames + [r.displayed];
      }
    }
  }
}
