/**
 * The hero carousel: a current slide index that an interval moves forward
 * cyclically and the dots set directly, and a search box whose text is
 * handed to the page on submit.
 */
module Carousel {
  import opened Prelude

  /** The interval's step `(prevIndex + 1) % images.length`. */
  function NextIndex(i: nat, n: nat): (r: nat)
    requires n > 0
    ensures r < n
    ensures i < n ==> r == if i == n - 1 then 0 else i + 1
  {
    (i + 1) % n
  }

  /** The index after `k` steps of the interval. */
  function Advance(i: nat, k: nat, n: nat): (r: nat)
    requires n > 0
  {
    if k == 0 then i else NextIndex(Advance(i, k - 1, n), n)
  }

  /** Within one cycle, `k` steps from a valid index count forward and wrap past the last slide once. */
  lemma {:induction false} AdvanceWithinCycle(i: nat, k: nat, n: nat)
    requires 0 < n && i < n && k <= n
    ensures Advance(i, k, n) == if i + k < n then i + k else i + k - n
  {
    if k > 0 {
      AdvanceWithinCycle(i, k - 1, n);
    }
  }

  /** Steps compose: `a` steps and then `b` more are `a + b` steps. */
  lemma {:induction false} AdvanceCompose(i: nat, a: nat, b: nat, n: nat)
    requires 0 < n
    ensures Advance(Advance(i, a, n), b, n) == Advance(i, a + b, n)
  {
    if b > 0 {
      AdvanceCompose(i, a, b - 1, n);
    }
  }

  /** After one step per slide the carousel is back where it started, and not before. */
  lemma FullCycleReturns(i: nat, n: nat)
    requires 0 < n && i < n
    ensures Advance(i, n, n) == i
    ensures forall k :: 0 < k < n ==> Advance(i, k, n) != i
  {
    AdvanceWithinCycle(i, n, n);
    forall k | 0 < k < n ensures Advance(i, k, n) != i {
      AdvanceWithinCycle(i, k, n);
    }
  }

  /** So the slide shown repeats with period `n`. */
  lemma AdvancePeriodic(i: nat, k: nat, n: nat)
    requires 0 < n && i < n
    ensures Advance(i, k + n, n) == Advance(i, k, n)
  {
    FullCycleReturns(i, n);
    AdvanceCompose(i, n, k, n);
  }

  class CarouselState {
    const slideCount: nat
    const autoPlay: bool
    /** Whether the page passed an `onSearch` callback. */
    const hasOnSearch: bool
    var currentIndex: int
    var searchQuery: string

    /** `useState(0)` and `useState("")`; `autoPlay` defaults to true. */
    constructor (slideCount: nat, autoPlay: bool, hasOnSearch: bool)
      ensures this.slideCount == slideCount && this.autoPlay == autoPlay && this.hasOnSearch == hasOnSearch
      ensures currentIndex == 0 && searchQuery == ""
      ensures Valid()
    {
      this.slideCount := slideCount;
      this.autoPlay := autoPlay;
      this.hasOnSearch := hasOnSearch;
      currentIndex := 0;
      searchQuery := "";
    }

    /** The index names a slide, or is the initial 0 when there are none. */
    predicate Valid()
      reads this
    {
      currentIndex == 0 || 0 <= currentIndex < slideCount
    }

    /** The effect installs its interval only with `autoPlay` on and more than one slide. */
    predicate AutoAdvances()
      reads this
    {
      autoPlay && slideCount > 1
    }

    /** One firing of the interval; without an interval nothing moves. */
    method Tick()
      requires Valid()
      modifies this`currentIndex
      ensures Valid()
      ensures AutoAdvances() ==> currentIndex == NextIndex(old(currentIndex), slideCount)
      ensures !AutoAdvances() ==> currentIndex == old(currentIndex)
    {
      if autoPlay && slideCount > 1 {
        currentIndex := (currentIndex + 1) % slideCount;
      }
    }

    /** The dots: one per slide, and none at all for a single slide. */
    function DotTargets(): (r: seq<nat>)
      reads this
      ensures slideCount <= 1 ==> r == []
      ensures slideCount > 1 ==> |r| == slideCount && forall k :: 0 <= k < |r| ==> r[k] == k
    {
      if slideCount > 1 then seq(slideCount, k requires 0 <= k => k) else []
    }

    /** `goToSlide(index)`: the index is taken as given. */
    method GoToSlide(index: int)
      modifies this`currentIndex
      ensures currentIndex == index
      ensures index in DotTargets() ==> Valid()
    {
      currentIndex := index;
    }

    /** The opacity class of slide `index`. */
    function SlideOpacity(index: int): (c: string)
      reads this
      ensures c == "opacity-100" <==> index == currentIndex
    {
      if index == currentIndex then "opacity-100" else "opacity-0"
    }

    /** The slides drawn with `opacity-100`. */
    function VisibleSlides(): set<int>
      reads this
    {
      set k | 0 <= k < slideCount && SlideOpacity(k) == "opacity-100"
    }

    /** The text field's `onChange`. */
    method SetSearchQuery(query: string)
      modifies this`searchQuery
      ensures searchQuery == query
    {
      searchQuery := query;
    }

    /** `handleSearch`: the query handed to `onSearch`, if the page gave one. */
    method HandleSearch() returns (submitted: Option<string>)
      ensures submitted == if hasOnSearch then Some(searchQuery) else None
    {
      submitted := if hasOnSearch then Some(searchQuery) else None;
    }
  }

  /** With at least one slide and a valid index, exactly the current slide is visible. */
  lemma ExactlyOneVisible(c: CarouselState)
    requires c.Valid() && c.slideCount > 0
    ensures c.VisibleSlides() == {c.currentIndex}
  {
    assert c.currentIndex in c.VisibleSlides();
  }

}
