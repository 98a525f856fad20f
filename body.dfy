/** The item list of the carousel (src/components/Carousel/CarouselBody.tsx): keyboard focus
    over the items, which scrolls the carousel only when the newly focused item sticks out
    of the visible window, the wheel in scrollbar mode, the roving `tabIndex` of the item
    links and the suppression of a link click that ends a drag. */
module CarouselBody {
  import opened Coordinates
  import opened Keys
  import opened CarouselEngine

  /** What a key press on the list does: the item focused next, and the item navigated to,
      if any; or `NoItemAt(index)` when an arrow key reads the edge of an item the list
      does not have (`carouselItemCoordinates[index]` is undefined, so reading its edge
      throws and no state is updated). */
  datatype KeyOutcome = KeyOutcome(focus: int, navigateTo: Option<int>) | NoItemAt(index: int)

  /** `handleKeyDown` on the list, with the visible window `[leftPosition, rightPosition]`
      (the list's scroll offset and that plus the container's width). `prev` is the focus
      index, which `handleFocus` sets to the focused link's position among all links of
      the list; with one link per item it is that item's index, and with more links it
      can lie past the last item. */
  function ItemKeyDown(key: Key, prev: int, coords: seq<Coord>, leftPosition: int, rightPosition: int): (r: KeyOutcome)
    requires 0 <= prev
    ensures r.NoItemAt? <==>
      (key == ArrowLeft || key == ArrowRight) && !(0 <= StepFocus(key, prev, |coords|) < |coords|)
    ensures r.NoItemAt? ==> r.index == StepFocus(key, prev, |coords|)
    ensures r.KeyOutcome? ==> r.focus == StepFocus(key, prev, |coords|)
    ensures prev < |coords| ==> r.KeyOutcome? && 0 <= r.focus < |coords|
    ensures r.KeyOutcome? && r.navigateTo.Some? ==> r.navigateTo.value == r.focus
    ensures key == ArrowLeft && r.KeyOutcome? ==> (r.navigateTo.Some? <==> coords[r.focus].left < leftPosition)
    ensures key == ArrowRight && r.KeyOutcome? ==> (r.navigateTo.Some? <==> coords[r.focus].right > rightPosition)
    ensures key == Home || key == End ==> r.KeyOutcome? && r.navigateTo.Some?
    ensures key == OtherKey ==> r == KeyOutcome(prev, None)
  {
    match key
    case ArrowLeft =>
      var newIndex := Max(prev - 1, 0);
      if newIndex >= |coords| then NoItemAt(newIndex)
      else KeyOutcome(newIndex, if coords[newIndex].left < leftPosition then Some(newIndex) else None)
    case ArrowRight =>
      var newIndex := Min(prev + 1, |coords| - 1);
      if newIndex < 0 then NoItemAt(newIndex)
      else KeyOutcome(newIndex, if coords[newIndex].right > rightPosition then Some(newIndex) else None)
    case Home => KeyOutcome(0, Some(0))
    case End => KeyOutcome(|coords| - 1, Some(|coords| - 1))
    case OtherKey => KeyOutcome(prev, None)
  }

  /** From a link position past the last item (an item with several links), ArrowRight,
      Home and End still reach an item, while ArrowLeft reads past the end unless the step
      lands on the last item. */
  lemma PastLastItem(prev: int, coords: seq<Coord>, leftPosition: int, rightPosition: int)
    requires 0 < |coords| <= prev
    ensures ItemKeyDown(ArrowRight, prev, coords, leftPosition, rightPosition).KeyOutcome?
    ensures ItemKeyDown(ArrowRight, prev, coords, leftPosition, rightPosition).focus == |coords| - 1
    ensures ItemKeyDown(Home, prev, coords, leftPosition, rightPosition) == KeyOutcome(0, Some(0))
    ensures ItemKeyDown(End, prev, coords, leftPosition, rightPosition) == KeyOutcome(|coords| - 1, Some(|coords| - 1))
    ensures ItemKeyDown(ArrowLeft, prev, coords, leftPosition, rightPosition).NoItemAt? <==> prev > |coords|
  {
  }

  /** An arrow key that moves focus onto an item lying wholly inside the visible window
      does not scroll. */
  lemma VisibleItemDoesNotScroll(key: Key, prev: int, coords: seq<Coord>, leftPosition: int, rightPosition: int)
    requires 0 <= prev < |coords|
    requires key == ArrowLeft || key == ArrowRight
    requires var next := StepFocus(key, prev, |coords|);
             leftPosition <= coords[next].left && coords[next].right <= rightPosition
    ensures ItemKeyDown(key, prev, coords, leftPosition, rightPosition).navigateTo == None
  {
  }

  /** The scroll offset after a wheel event of `deltaX` pixels in scrollbar mode. */
  function WheelOffset(offset: int, deltaX: int, maxTranslateX: int): (r: int)
    ensures 0 <= maxTranslateX ==> 0 <= r <= maxTranslateX
    ensures 0 <= offset + deltaX <= maxTranslateX ==> r == offset + deltaX
    ensures offset + deltaX < 0 <= maxTranslateX ==> r == 0
    ensures offset + deltaX > maxTranslateX ==> r == maxTranslateX
  {
    Clamp(offset + deltaX, 0, maxTranslateX)
  }

  /** A wheel movement that stays inside the scroll range is undone by the opposite
      movement. */
  lemma WheelUndo(offset: int, deltaX: int, maxTranslateX: int)
    requires 0 <= offset <= maxTranslateX && 0 <= offset + deltaX <= maxTranslateX
    ensures WheelOffset(WheelOffset(offset, deltaX, maxTranslateX), -deltaX, maxTranslateX) == offset
  {
  }

  /** The list's own state and the links of its items. */
  class Body {
    const carousel: Carousel
    /** Whether each item's content holds a link (`item.querySelector('a')`). */
    const hasAnchor: seq<bool>
    /** The `tabIndex` of each item's link; entries of items without a link are unused. */
    const anchorTabIndex: array<int>
    var focusDirty: bool
    var focusIndex: int

    constructor (carousel: Carousel, hasAnchor: seq<bool>)
      ensures this.carousel == carousel && this.hasAnchor == hasAnchor
      ensures fresh(anchorTabIndex) && anchorTabIndex.Length == |hasAnchor|
      ensures !focusDirty && focusIndex == 0
    {
      this.carousel := carousel;
      this.hasAnchor := hasAnchor;
      anchorTabIndex := new int[|hasAnchor|](_ => 0);
      focusDirty := false;
      focusIndex := 0;
    }

    /** `handleItemClick`: the click on an item's link is cancelled exactly when it ends a
        drag. */
    method HandleItemClick() returns (prevented: bool)
      ensures prevented <==> carousel.isDragged
    {
      prevented := false;
      if carousel.isDragged {
        prevented := true;
      }
    }

    /** `handleFocus`: the list's links are numbered in document order, and the link that
        receives focus makes its number the focus index. */
    method HandleFocus(index: int)
      modifies this`focusDirty, this`focusIndex
      ensures focusDirty && focusIndex == index
    {
      focusDirty := true;
      focusIndex := index;
    }

    /** `handleKeyDown`: the container's width is read from the page. `failed` reports the
        read past the last item, which throws, so that nothing changes. */
    method HandleKeyDown(key: Key, containerWidth: int) returns (failed: bool)
      requires carousel.Valid() && 0 <= focusIndex
      modifies this`focusIndex, carousel`currentPage, carousel`targetIndex
      ensures var leftPosition := -old(carousel.translateX);
              var outcome := ItemKeyDown(key, old(focusIndex), carousel.coords, leftPosition, leftPosition + containerWidth);
              (failed <==> outcome.NoItemAt?) &&
              (outcome.NoItemAt? ==> focusIndex == old(focusIndex) && carousel.Position() == old(carousel.Position())) &&
              (outcome.KeyOutcome? ==>
                focusIndex == outcome.focus &&
                carousel.Position() == match outcome.navigateTo
                  case Some(index) => IndexNavigation(carousel.snapType, carousel.itemsPerPage, carousel.totalPages, index)
                  case None => old(carousel.Position()))
    {
      failed := false;
      var translateX := carousel.translateX * -1;
      var leftPosition := translateX;
      var rightPosition := leftPosition + containerWidth;
      match key
      case ArrowLeft =>
        var newIndex := Max(focusIndex - 1, 0);
        if newIndex >= |carousel.coords| {
          failed := true;
          return;
        }
        if carousel.coords[newIndex].left < leftPosition {
          carousel.NavigateByIndex(newIndex);
        }
        focusIndex := newIndex;
      case ArrowRight =>
        var newIndex := Min(focusIndex + 1, carousel.totalItems - 1);
        if newIndex < 0 {
          failed := true;
          return;
        }
        if carousel.coords[newIndex].right > rightPosition {
          carousel.NavigateByIndex(newIndex);
        }
        focusIndex := newIndex;
      case Home =>
        focusIndex := 0;
        carousel.NavigateByIndex(0);
      case End =>
        focusIndex := carousel.totalItems - 1;
        carousel.NavigateByIndex(carousel.totalItems - 1);
      case OtherKey =>
    }

    /** `handleWheel`: only the scrollbar mode scrolls with the wheel. */
    method HandleWheel(deltaX: int)
      modifies carousel`translateX
      ensures carousel.translateX ==
        if carousel.paginationType == Scrollbar
        then -WheelOffset(-old(carousel.translateX), deltaX, carousel.maxTranslateX)
        else old(carousel.translateX)
    {
      if carousel.paginationType != Scrollbar {
        return;
      }
      var translateX := carousel.translateX;
      var newTranslateX := Min(Max(translateX * -1 + deltaX, 0), carousel.maxTranslateX);
      carousel.translateX := newTranslateX * -1;
    }

    /** The effect on `targetIndex`: the link of the targeted item is the one reached by
        Tab (`tabIndex` 0); every other link is skipped (-1). */
    method TabIndexEffect()
      modifies anchorTabIndex
      ensures forall i :: 0 <= i < anchorTabIndex.Length && i < |hasAnchor| && hasAnchor[i] ==>
        (anchorTabIndex[i] == 0 <==> i == carousel.targetIndex) && -1 <= anchorTabIndex[i] <= 0
      ensures forall i :: 0 <= i < anchorTabIndex.Length && !(i < |hasAnchor| && hasAnchor[i]) ==>
        anchorTabIndex[i] == old(anchorTabIndex[i])
    {
      var index := 0;
      while index < anchorTabIndex.Length
        invariant 0 <= index <= anchorTabIndex.Length
        invariant forall i :: 0 <= i < index && i < |hasAnchor| && hasAnchor[i] ==>
          anchorTabIndex[i] == if i == carousel.targetIndex then 0 else -1
        invariant forall i :: 0 <= i < anchorTabIndex.Length && !(i < index && i < |hasAnchor| && hasAnchor[i]) ==>
          anchorTabIndex[i] == old(anchorTabIndex[i])
      {
        if index < |hasAnchor| && hasAnchor[index] {
          anchorTabIndex[index] := if index == carousel.targetIndex then 0 else -1;
        }
        index := index + 1;
      }
    }
  }
}
