/** The indicator list of the carousel (src/components/Carousel/CarouselPagination.tsx):
    with more than MAX_INDICATORS_TOTAL pages only a window of that many indicators around
    the current page is shown, the ones outside it are hidden, and a shown indicator at an
    edge of the window with further pages beyond it is drawn fading. */
module CarouselPagination {
  import opened CarouselUtils
  import opened Keys
  import opened Coordinates
  import CarouselEngine

  const MAX_INDICATORS_LEFT: int := 2
  const MAX_INDICATORS_RIGHT: int := 2
  const MAX_INDICATORS_TOTAL: int := 5

  /** The ascending integers `lo, lo + 1, ..., hi - 1`. */
  function Range(lo: int, hi: int): (r: seq<int>)
    ensures |r| == if lo <= hi then hi - lo else 0
    ensures forall k :: 0 <= k < |r| ==> r[k] == lo + k
    ensures Increasing(r)
    ensures forall y :: y in r <==> lo <= y < hi
    decreases hi - lo
  {
    if lo >= hi then [] else [lo] + Range(lo + 1, hi)
  }

  /** The first page of the shown window: the window keeps the current page in its
      middle, except that it is pushed back inside the first or the last pages. */
  function WindowStart(currentPage: int, totalPages: int): (lo: int)
    ensures totalPages > MAX_INDICATORS_TOTAL ==> 0 <= lo <= totalPages - MAX_INDICATORS_TOTAL
    ensures totalPages > MAX_INDICATORS_TOTAL && 0 <= currentPage < totalPages ==>
      lo <= currentPage < lo + MAX_INDICATORS_TOTAL
  {
    if currentPage < MAX_INDICATORS_LEFT + 1 then 0
    else if currentPage > totalPages - MAX_INDICATORS_RIGHT - 1 then totalPages - MAX_INDICATORS_TOTAL
    else currentPage - MAX_INDICATORS_LEFT
  }

  /** The hidden indicators, ascending: none with few pages, otherwise every page before
      and after the window. */
  function HiddenIndexes(currentPage: int, totalPages: int): (r: seq<int>)
    ensures Increasing(r)
    ensures totalPages <= MAX_INDICATORS_TOTAL ==> r == []
    ensures totalPages > MAX_INDICATORS_TOTAL ==> |r| == totalPages - MAX_INDICATORS_TOTAL
    ensures forall i :: i in r <==>
      totalPages > MAX_INDICATORS_TOTAL && 0 <= i < totalPages &&
      !(WindowStart(currentPage, totalPages) <= i < WindowStart(currentPage, totalPages) + MAX_INDICATORS_TOTAL)
    ensures 0 <= currentPage < totalPages ==> currentPage !in r
  {
    if totalPages <= MAX_INDICATORS_TOTAL then []
    else
      var lo := WindowStart(currentPage, totalPages);
      ConcatKeepsIncreasing(Range(0, lo), Range(lo + MAX_INDICATORS_TOTAL, totalPages));
      Range(0, lo) + Range(lo + MAX_INDICATORS_TOTAL, totalPages)
  }

  /** The fading indicators, ascending: an edge of the window fades exactly when more
      pages lie beyond it. */
  function FadingIndexes(currentPage: int, totalPages: int): (r: seq<int>)
    ensures Increasing(r) && |r| <= 2
    ensures forall i :: i in r ==> 0 <= i < totalPages && i !in HiddenIndexes(currentPage, totalPages)
  {
    if totalPages <= MAX_INDICATORS_TOTAL then []
    else
      var lo := WindowStart(currentPage, totalPages);
      var hi := lo + MAX_INDICATORS_TOTAL - 1;
      (if lo > 0 then [lo] else []) + (if hi < totalPages - 1 then [hi] else [])
  }

  /** A page farther than MAX_INDICATORS_LEFT before or MAX_INDICATORS_RIGHT after the
      current page. */
  predicate Far(page: int, currentPage: int, totalPages: int) {
    0 <= page < totalPages &&
    (page < currentPage - MAX_INDICATORS_LEFT || page > currentPage + MAX_INDICATORS_RIGHT)
  }

  /** The first loop of the windowing effect: every page is added to the list when it is
      far from the current page and removed from it otherwise. */
  method HideFarPages(list: NumArray, currentPage: int, totalPages: int)
    requires list.elems == []
    modifies list
    ensures Increasing(list.elems)
    ensures forall y :: y in list.elems <==> Far(y, currentPage, totalPages)
  {
    var i := 0;
    while i < totalPages
      invariant 0 <= i <= Max(totalPages, 0)
      invariant Increasing(list.elems)
      invariant forall y :: y in list.elems <==> y < i && Far(y, currentPage, totalPages)
    {
      if i < currentPage - MAX_INDICATORS_LEFT || i > currentPage + MAX_INDICATORS_RIGHT {
        AppendKeepsIncreasing(list.elems, i);
        AddItemToArray(list, i);
      } else if i >= currentPage - MAX_INDICATORS_LEFT || i <= currentPage + MAX_INDICATORS_RIGHT {
        RemoveItemFromArray(list, i);
      }
      i := i + 1;
    }
  }

  /** `for (i = 1; i <= count; i++) removeItemFromArray(list, currentPage + i)`. */
  method ShowAfter(list: NumArray, currentPage: int, count: int)
    requires Increasing(list.elems)
    modifies list
    ensures Increasing(list.elems)
    ensures forall y :: y in list.elems <==> y in old(list.elems) && !(currentPage < y <= currentPage + count)
  {
    var i := 1;
    while i <= count
      invariant 1 <= i <= Max(count + 1, 1)
      invariant Increasing(list.elems)
      invariant forall y :: y in list.elems <==> y in old(list.elems) && !(currentPage < y < currentPage + i)
    {
      RemoveItemFromArray(list, currentPage + i);
      i := i + 1;
    }
  }

  /** `for (i = 1; i <= count; i++) removeItemFromArray(list, currentPage - i)`. */
  method ShowBefore(list: NumArray, currentPage: int, count: int)
    requires Increasing(list.elems)
    modifies list
    ensures Increasing(list.elems)
    ensures forall y :: y in list.elems <==> y in old(list.elems) && !(currentPage - count <= y < currentPage)
  {
    var i := 1;
    while i <= count
      invariant 1 <= i <= Max(count + 1, 1)
      invariant Increasing(list.elems)
      invariant forall y :: y in list.elems <==> y in old(list.elems) && !(currentPage - i < y < currentPage)
    {
      RemoveItemFromArray(list, currentPage - i);
      i := i + 1;
    }
  }

  /** Removing the pages after a current page near the start leaves the pages outside
      the window. */
  lemma WidenedAfter(currentPage: int, totalPages: int, far: seq<int>, hidden: seq<int>)
    requires totalPages > MAX_INDICATORS_TOTAL && currentPage < MAX_INDICATORS_LEFT + 1
    requires forall y :: y in far <==> Far(y, currentPage, totalPages)
    requires forall y :: y in hidden <==>
      y in far && !(currentPage < y <= currentPage + (MAX_INDICATORS_TOTAL - currentPage - 1))
    ensures forall y :: y in hidden <==> y in HiddenIndexes(currentPage, totalPages)
  {
  }

  /** Removing the pages before a current page near the end leaves the pages outside
      the window. */
  lemma WidenedBefore(currentPage: int, totalPages: int, far: seq<int>, hidden: seq<int>)
    requires totalPages > MAX_INDICATORS_TOTAL
    requires MAX_INDICATORS_LEFT + 1 <= currentPage && currentPage > totalPages - MAX_INDICATORS_RIGHT - 1
    requires forall y :: y in far <==> Far(y, currentPage, totalPages)
    requires forall y :: y in hidden <==>
      y in far && !(currentPage - (MAX_INDICATORS_TOTAL - (totalPages - 1 - currentPage) - 1) <= y < currentPage)
    ensures forall y :: y in hidden <==> y in HiddenIndexes(currentPage, totalPages)
  {
  }

  /** In the middle the far pages are exactly the pages outside the window. */
  lemma Centred(currentPage: int, totalPages: int, far: seq<int>)
    requires totalPages > MAX_INDICATORS_TOTAL
    requires MAX_INDICATORS_LEFT + 1 <= currentPage <= totalPages - MAX_INDICATORS_RIGHT - 1
    requires forall y :: y in far <==> Far(y, currentPage, totalPages)
    ensures forall y :: y in far <==> y in HiddenIndexes(currentPage, totalPages)
  {
  }

  /** The state of the two lists once the far pages are hidden and nothing fades yet. */
  ghost predicate FarHidden(hidden: NumArray, fading: NumArray, currentPage: int, totalPages: int)
    reads hidden, fading
  {
    hidden != fading && fading.elems == [] && Increasing(hidden.elems) &&
    forall y :: y in hidden.elems <==> Far(y, currentPage, totalPages)
  }

  /** The state of the two lists once the window is complete. */
  ghost predicate WindowDone(hidden: NumArray, fading: NumArray, currentPage: int, totalPages: int)
    reads hidden, fading
  {
    Increasing(hidden.elems) &&
    (forall y :: y in hidden.elems <==> y in HiddenIndexes(currentPage, totalPages)) &&
    fading.elems == FadingIndexes(currentPage, totalPages)
  }

  /** The branch for a current page among the first ones: unhide the pages after it up to
      a full window and let the window's right edge fade. */
  method WidenFirstGroup(hidden: NumArray, fading: NumArray, currentPage: int, totalPages: int)
    requires totalPages > MAX_INDICATORS_TOTAL && currentPage < MAX_INDICATORS_LEFT + 1
    requires FarHidden(hidden, fading, currentPage, totalPages)
    modifies hidden, fading
    ensures WindowDone(hidden, fading, currentPage, totalPages)
  {
    ghost var far := hidden.elems;
    var leftIndicators := currentPage;
    var rightIndicators := MAX_INDICATORS_TOTAL - leftIndicators - 1;
    ShowAfter(hidden, currentPage, rightIndicators);
    AddItemToArray(fading, MAX_INDICATORS_TOTAL - 1);
    WidenedAfter(currentPage, totalPages, far, hidden.elems);
  }

  /** The branch for a current page among the last ones: unhide the pages before it down
      to a full window and let the window's left edge fade. */
  method WidenLastGroup(hidden: NumArray, fading: NumArray, currentPage: int, totalPages: int)
    requires totalPages > MAX_INDICATORS_TOTAL
    requires MAX_INDICATORS_LEFT + 1 <= currentPage && currentPage > totalPages - MAX_INDICATORS_RIGHT - 1
    requires FarHidden(hidden, fading, currentPage, totalPages)
    modifies hidden, fading
    ensures WindowDone(hidden, fading, currentPage, totalPages)
  {
    ghost var far := hidden.elems;
    var rightIndicators := totalPages - 1 - currentPage;
    var leftIndicators := MAX_INDICATORS_TOTAL - rightIndicators - 1;
    ShowBefore(hidden, currentPage, leftIndicators);
    AddItemToArray(fading, totalPages - MAX_INDICATORS_TOTAL);
    WidenedBefore(currentPage, totalPages, far, hidden.elems);
  }

  /** The branch for a current page in the middle: the window is already complete; its
      edges fade unless they are the first or the last page. */
  method FadeMiddleEdges(hidden: NumArray, fading: NumArray, currentPage: int, totalPages: int)
    requires totalPages > MAX_INDICATORS_TOTAL
    requires MAX_INDICATORS_LEFT + 1 <= currentPage <= totalPages - MAX_INDICATORS_RIGHT - 1
    requires FarHidden(hidden, fading, currentPage, totalPages)
    modifies fading
    ensures WindowDone(hidden, fading, currentPage, totalPages)
  {
    Centred(currentPage, totalPages, hidden.elems);
    var leftmostIndicator := currentPage - MAX_INDICATORS_LEFT;
    if leftmostIndicator != 0 {
      AddItemToArray(fading, leftmostIndicator);
    }
    assert fading.elems == [leftmostIndicator];
    var rightmostIndicator := currentPage + MAX_INDICATORS_RIGHT;
    if rightmostIndicator != totalPages - 1 {
      AddItemToArray(fading, rightmostIndicator);
    }
  }

  /** The windowing effect: first every page far from the current page is hidden; near
      the first or the last pages the window is then widened on its other side back to
      MAX_INDICATORS_TOTAL indicators, and the fading edges are collected. */
  method IndicatorWindow(currentPage: int, totalPages: int) returns (hidden: seq<int>, fading: seq<int>)
    ensures hidden == HiddenIndexes(currentPage, totalPages)
    ensures fading == FadingIndexes(currentPage, totalPages)
  {
    if totalPages <= MAX_INDICATORS_TOTAL {
      return [], [];
    }
    var newHiddenIndexes := new NumArray();
    var newFadingIndexes := new NumArray();
    HideFarPages(newHiddenIndexes, currentPage, totalPages);

    if currentPage < MAX_INDICATORS_LEFT + 1 {
      WidenFirstGroup(newHiddenIndexes, newFadingIndexes, currentPage, totalPages);
    } else if currentPage > totalPages - MAX_INDICATORS_RIGHT - 1 {
      WidenLastGroup(newHiddenIndexes, newFadingIndexes, currentPage, totalPages);
    } else {
      FadeMiddleEdges(newHiddenIndexes, newFadingIndexes, currentPage, totalPages);
    }

    IncreasingUnique(newHiddenIndexes.elems, HiddenIndexes(currentPage, totalPages));
    hidden := newHiddenIndexes.elems;
    fading := newFadingIndexes.elems;
  }

  /** Near the first pages the window is pages 0..4 and only page 4 fades. */
  lemma FirstGroup(currentPage: int, totalPages: int)
    requires totalPages > MAX_INDICATORS_TOTAL && currentPage < MAX_INDICATORS_LEFT + 1
    ensures HiddenIndexes(currentPage, totalPages) == Range(MAX_INDICATORS_TOTAL, totalPages)
    ensures FadingIndexes(currentPage, totalPages) == [MAX_INDICATORS_TOTAL - 1]
  {
    assert Range(0, 0) == [];
  }

  /** Near the last pages the window is the last five pages and only the first of them
      fades. */
  lemma LastGroup(currentPage: int, totalPages: int)
    requires totalPages > MAX_INDICATORS_TOTAL
    requires MAX_INDICATORS_LEFT + 1 <= currentPage && currentPage > totalPages - MAX_INDICATORS_RIGHT - 1
    ensures HiddenIndexes(currentPage, totalPages) == Range(0, totalPages - MAX_INDICATORS_TOTAL)
    ensures FadingIndexes(currentPage, totalPages) == [totalPages - MAX_INDICATORS_TOTAL]
  {
    assert Range(totalPages, totalPages) == [];
  }

  /** In the middle the window is centred on the current page; its left edge always fades
      and its right edge fades unless it is the last page. */
  lemma MiddleGroup(currentPage: int, totalPages: int)
    requires totalPages > MAX_INDICATORS_TOTAL
    requires MAX_INDICATORS_LEFT + 1 <= currentPage <= totalPages - MAX_INDICATORS_RIGHT - 1
    ensures forall i :: 0 <= i < totalPages ==>
      (i in HiddenIndexes(currentPage, totalPages) <==>
       !(currentPage - MAX_INDICATORS_LEFT <= i <= currentPage + MAX_INDICATORS_RIGHT))
    ensures FadingIndexes(currentPage, totalPages) ==
      [currentPage - MAX_INDICATORS_LEFT] +
      (if currentPage + MAX_INDICATORS_RIGHT != totalPages - 1 then [currentPage + MAX_INDICATORS_RIGHT] else [])
  {
  }

  /** The indicator list's own state: the focused indicator, whether focus has been moved
      by the user, and the committed hidden and fading lists. It reads and navigates the
      carousel it belongs to. */
  class Pagination {
    const carousel: CarouselEngine.Carousel
    var focusDirty: bool
    var focusIndex: int
    var hiddenIndexes: seq<int>
    var fadingIndexes: seq<int>

    constructor (carousel: CarouselEngine.Carousel)
      ensures this.carousel == carousel
      ensures !focusDirty && focusIndex == carousel.currentPage
      ensures hiddenIndexes == [] && fadingIndexes == []
    {
      this.carousel := carousel;
      focusDirty := false;
      focusIndex := carousel.currentPage;
      hiddenIndexes := [];
      fadingIndexes := [];
    }

    /** `handleFocus`: focusing an indicator records it, and navigates to its page only
        when the indicator is hidden. */
    method HandleFocus(index: int)
      modifies this`focusDirty, this`focusIndex, carousel`currentPage, carousel`targetIndex
      ensures focusDirty && focusIndex == index
      ensures index in hiddenIndexes ==>
        carousel.Position() == CarouselEngine.PageNavigation(carousel.snapType, carousel.itemsPerPage, index)
      ensures index !in hiddenIndexes ==> carousel.Position() == old(carousel.Position())
    {
      focusDirty := true;
      focusIndex := index;
      if index in hiddenIndexes {
        carousel.NavigateByPage(index);
      }
    }

    /** `handleKeyDown`: arrows step the focus within the indicators, Home and End jump to
        the first and last one, other keys are ignored. */
    method HandleKeyDown(key: Key)
      modifies this`focusIndex
      ensures focusIndex == StepFocus(key, old(focusIndex), carousel.totalPages)
    {
      match key
      case ArrowLeft =>
        focusIndex := if focusIndex - 1 >= 0 then focusIndex - 1 else 0;
      case ArrowRight =>
        focusIndex := if focusIndex + 1 <= carousel.totalPages - 1 then focusIndex + 1 else carousel.totalPages - 1;
      case Home =>
        focusIndex := 0;
      case End =>
        focusIndex := carousel.totalPages - 1;
      case OtherKey =>
    }

    /** The windowing effect, run whenever the current page or the page count changes. */
    method WindowEffect()
      modifies this`hiddenIndexes, this`fadingIndexes
      ensures hiddenIndexes == HiddenIndexes(carousel.currentPage, carousel.totalPages)
      ensures fadingIndexes == FadingIndexes(carousel.currentPage, carousel.totalPages)
    {
      hiddenIndexes, fadingIndexes := IndicatorWindow(carousel.currentPage, carousel.totalPages);
    }
  }
}
