/**
 * The horizontal paging list of useStoryScroll: a drag in progress flag, the
 * page index a settled scroll lands on, and the programmatic scroll that
 * follows the cursor. The screen width is a parameter; the 50 ms and 100 ms
 * delays before the list is asked to scroll are not modelled.
 */
module Scroll {
  import opened StoryTypes

  /** `Math.round`: the nearest integer, halves rounding up. */
  function Round(x: real): int
  {
    (x + 0.5).Floor
  }

  /** Round(x) is within half of x, and it is the only integer that is. */
  lemma RoundIsNearest(x: real, k: int)
    ensures Round(x) as real - 0.5 <= x < Round(x) as real + 0.5
    ensures k as real - 0.5 <= x < k as real + 0.5 ==> k == Round(x)
  {
  }

  /** Dividing by a positive width keeps comparisons with a multiple of it. */
  lemma QuotientAtLeast(a: real, width: real, c: real)
    requires width > 0.0
    ensures a / width >= c <==> a >= c * width
  {
    var q := a / width;
    assert q * width == a;
    assert (q - c) * width == a - c * width;
  }

  /** The page a list scrolled to `offset` shows. */
  function PageIndex(offset: real, width: real): int
    requires width > 0.0
  {
    Round(offset / width)
  }

  /** Scrolling exactly to page k lands on page k, and so does stopping less than half a page away. */
  lemma PageIndexOfPageOffset(k: int, width: real, drift: real)
    requires width > 0.0 && -width / 2.0 <= drift < width / 2.0
    ensures PageIndex(k as real * width + drift, width) == k
  {
    var q := (k as real * width + drift) / width;
    assert q * width == k as real * width + drift;
    assert q == k as real + drift / width;
    QuotientAtLeast(drift, width, -0.5);
    QuotientAtLeast(drift, width, 0.5);
    RoundIsNearest(q, k);
  }

  /** The callbacks the handlers invoke, in order. */
  datatype Call = ScrollStart | UserChange(index: int) | ScrollEnd

  /** handleMomentumScrollEnd's calls: a user change only when the page differs, then always the end. */
  function MomentumEndCalls(newIndex: int, currentUserIndex: int): seq<Call>
  {
    (if newIndex != currentUserIndex then [UserChange(newIndex)] else []) + [ScrollEnd]
  }

  lemma MomentumEndCallsSpec(newIndex: int, currentUserIndex: int)
    ensures var calls := MomentumEndCalls(newIndex, currentUserIndex);
      && calls[|calls| - 1] == ScrollEnd
      && (UserChange(newIndex) in calls <==> newIndex != currentUserIndex)
      && (forall n :: UserChange(n) in calls ==> n == newIndex)
      && |calls| == if newIndex != currentUserIndex then 2 else 1
  {
  }

  /** The effect's guard: scroll only when visible, mounted and not being dragged. */
  predicate ShouldScrollTo(visible: bool, listMounted: bool, isScrolling: bool)
  {
    visible && listMounted && !isScrolling
  }

  class StoryScroll {
    var isScrolling: bool

    constructor ()
      ensures !isScrolling
    {
      isScrolling := false;
    }

    method HandleScrollBeginDrag() returns (calls: seq<Call>)
      modifies this
      ensures isScrolling && calls == [ScrollStart]
    {
      isScrolling := true;
      calls := [ScrollStart];
    }

    method HandleMomentumScrollEnd(offset: real, width: real, currentUserIndex: int) returns (calls: seq<Call>)
      requires width > 0.0
      modifies this
      ensures !isScrolling
      ensures calls == MomentumEndCalls(PageIndex(offset, width), currentUserIndex)
    {
      var newIndex := Round(offset / width);
      isScrolling := false;
      calls := [];
      if newIndex != currentUserIndex {
        calls := calls + [UserChange(newIndex)];
      }
      calls := calls + [ScrollEnd];
    }

    /** The effect on [currentUserIndex, visible]: the index the list is asked to scroll to, if any. */
    method ScrollEffect(visible: bool, listMounted: bool, currentUserIndex: int) returns (request: Option<int>)
      ensures request.Some? <==> ShouldScrollTo(visible, listMounted, isScrolling)
      ensures request.Some? ==> request.value == currentUserIndex
    {
      if visible && listMounted && !isScrolling {
        request := Some(currentUserIndex);
      } else {
        request := None;
      }
    }
  }
}
