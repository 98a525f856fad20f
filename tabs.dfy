/** The tab strip (src/components/Tabs/Tabs.tsx): keyboard focus that skips disabled tabs,
    the previous/next buttons that scroll the strip by the tabs it cuts off, and the
    decision how far to scroll so that a selected tab comes into view.

    The width of the previous button, PREV_BUTTON_WIDTH, is defined in
    src/components/Tabs/constants.ts, which is not part of this model; it is a parameter. */
module Tabs {
  import opened Coordinates
  import opened Keys
  import opened CarouselUtils

  /** Room kept for the arrow buttons when a tab is scrolled into view. */
  const ARROW_BUTTON_SIZE: int := 44

  // ---------------------------------------------------------------------------------
  // Disabled tabs and keyboard focus

  /** The ascending indexes of the disabled tabs. */
  function DisabledIndexesOf(disabled: seq<bool>): (r: seq<int>)
    ensures Increasing(r)
    ensures forall i :: i in r <==> 0 <= i < |disabled| && disabled[i]
  {
    if disabled == [] then []
    else
      var front := DisabledIndexesOf(disabled[..|disabled| - 1]);
      if disabled[|disabled| - 1] then
        AppendKeepsIncreasing(front, |disabled| - 1);
        front + [|disabled| - 1]
      else front
  }

  /** `disabledIndexes`, built by pushing the index of every disabled tab in order. */
  method DisabledIndexes(disabled: seq<bool>) returns (indexes: seq<int>)
    ensures indexes == DisabledIndexesOf(disabled)
  {
    indexes := [];
    var index := 0;
    while index < |disabled|
      invariant 0 <= index <= |disabled|
      invariant indexes == DisabledIndexesOf(disabled[..index])
    {
      assert disabled[..index + 1][..index] == disabled[..index];
      if disabled[index] {
        indexes := indexes + [index];
      }
      index := index + 1;
    }
    assert disabled[..|disabled|] == disabled;
  }

  /** `r` is where ArrowLeft moves focus from `prev`: the nearest enabled tab before it, or
      `prev` itself (at least 0) when every tab before it is disabled. */
  predicate IsPrevEnabled(disabledIndexes: seq<int>, prev: int, r: int) {
    (0 <= r < prev && r !in disabledIndexes && forall j :: r < j < prev ==> j in disabledIndexes) ||
    (r == Max(prev, 0) && forall j :: 0 <= j < prev ==> j in disabledIndexes)
  }

  /** `r` is where ArrowRight moves focus from `prev` among `count` tabs: the nearest
      enabled tab after it, or `prev` itself (at most the last tab) when every tab after it
      is disabled. */
  predicate IsNextEnabled(disabledIndexes: seq<int>, prev: int, count: int, r: int) {
    (prev < r < count && r !in disabledIndexes && forall j :: prev < j < r ==> j in disabledIndexes) ||
    (r == Min(prev, count - 1) && forall j :: prev < j < count ==> j in disabledIndexes)
  }

  /** The two characterisations each name exactly one tab. */
  lemma FocusTargetsUnique(disabledIndexes: seq<int>, prev: int, count: int, r1: int, r2: int)
    ensures IsPrevEnabled(disabledIndexes, prev, r1) && IsPrevEnabled(disabledIndexes, prev, r2) ==> r1 == r2
    ensures IsNextEnabled(disabledIndexes, prev, count, r1) && IsNextEnabled(disabledIndexes, prev, count, r2) ==> r1 == r2
  {
  }

  /** The ArrowLeft updater: walk left from `prev` to the first enabled tab. */
  method PrevEnabled(disabledIndexes: seq<int>, prev: int) returns (newIndex: int)
    ensures IsPrevEnabled(disabledIndexes, prev, newIndex)
  {
    newIndex := prev;
    var i := prev;
    while i > 0
      invariant i <= Max(prev, 0) && newIndex == prev
      invariant forall j :: i <= j < prev ==> j in disabledIndexes
    {
      if i - 1 !in disabledIndexes {
        newIndex := i - 1;
        break;
      }
      i := i - 1;
    }
    newIndex := Max(newIndex, 0);
  }

  /** The ArrowRight updater: walk right from `prev` to the first enabled tab. */
  method NextEnabled(disabledIndexes: seq<int>, prev: int, count: int) returns (newIndex: int)
    ensures IsNextEnabled(disabledIndexes, prev, count, newIndex)
  {
    newIndex := prev;
    var i := prev;
    while i < count - 1
      invariant prev <= i && (prev < count ==> i <= count - 1) && newIndex == prev
      invariant forall j :: prev < j <= i ==> j in disabledIndexes
    {
      if i + 1 !in disabledIndexes {
        newIndex := i + 1;
        break;
      }
      i := i + 1;
    }
    newIndex := Min(newIndex, count - 1);
  }

  /** `data.findIndex((item) => item.selected)`: the first selected tab, or -1. */
  function FirstSelected(selected: seq<bool>): (r: int)
    ensures -1 <= r < |selected|
    ensures r >= 0 ==> selected[r]
    ensures forall j :: 0 <= j < |selected| && (r == -1 || j < r) ==> !selected[j]
  {
    if selected == [] then -1
    else if selected[0] then 0
    else
      var k := FirstSelected(selected[1..]);
      if k == -1 then -1 else k + 1
  }

  // ---------------------------------------------------------------------------------
  // Scrolling

  /** `scrollTabIntoView`'s decision for a tab spanning `[elementLeft, elementLeft +
      elementWidth]` in a strip of `clientWidth` pixels out of `scrollWidth` scrolled to
      `scrollLeft`: the position to scroll to, or None to stay. A tab cut off or hidden on
      the right is brought in with its left edge one arrow button from the left; otherwise
      one cut off or hidden on the left is brought in with its right edge one arrow button
      from the right. */
  function ScrollTabIntoView(clientWidth: int, scrollWidth: int, scrollLeft: int,
                             elementLeft: int, elementWidth: int): (r: Option<int>)
    ensures clientWidth == scrollWidth ==> r == None
    ensures r.Some? ==>
      r.value == elementLeft - ARROW_BUTTON_SIZE ||
      r.value == elementLeft + elementWidth - clientWidth + ARROW_BUTTON_SIZE
  {
    if clientWidth == scrollWidth then None
    else
      var position := scrollLeft + clientWidth;
      var elementRight := elementLeft + elementWidth;
      var partiallyVisibleFromTheRight :=
        elementLeft < position && elementRight + ARROW_BUTTON_SIZE > position;
      var completelyHiddenToTheRight :=
        elementLeft >= position && elementRight > position;
      var partiallyVisibleFromTheLeft :=
        elementLeft - ARROW_BUTTON_SIZE < scrollLeft && elementRight > scrollLeft;
      var completelyHiddenToTheLeft :=
        elementLeft < scrollLeft && elementRight <= scrollLeft;
      if partiallyVisibleFromTheRight || completelyHiddenToTheRight then
        Some(elementLeft - ARROW_BUTTON_SIZE)
      else if partiallyVisibleFromTheLeft || completelyHiddenToTheLeft then
        Some(elementRight - clientWidth + ARROW_BUTTON_SIZE)
      else None
  }

  /** A tab that is in view with an arrow button's room on both sides is not scrolled. */
  lemma VisibleTabStays(clientWidth: int, scrollWidth: int, scrollLeft: int,
                        elementLeft: int, elementWidth: int)
    requires 0 <= elementWidth
    requires scrollLeft + ARROW_BUTTON_SIZE <= elementLeft
    requires elementLeft + elementWidth + ARROW_BUTTON_SIZE <= scrollLeft + clientWidth
    ensures ScrollTabIntoView(clientWidth, scrollWidth, scrollLeft, elementLeft, elementWidth) == None
  {
  }

  /** A tab past the right edge of the view is brought in from the right, even when it
      also reaches past the left edge. */
  lemma RightSideWins(clientWidth: int, scrollWidth: int, scrollLeft: int,
                      elementLeft: int, elementWidth: int)
    requires clientWidth != scrollWidth && 0 < elementWidth
    requires elementLeft + elementWidth + ARROW_BUTTON_SIZE > scrollLeft + clientWidth
    ensures ScrollTabIntoView(clientWidth, scrollWidth, scrollLeft, elementLeft, elementWidth) ==
            Some(elementLeft - ARROW_BUTTON_SIZE)
  {
  }

  /** A tab past the left edge of the view, and not past the right one, is brought in from
      the left. */
  lemma LeftSideScrolls(clientWidth: int, scrollWidth: int, scrollLeft: int,
                        elementLeft: int, elementWidth: int)
    requires clientWidth != scrollWidth && 0 < elementWidth
    requires elementLeft - ARROW_BUTTON_SIZE < scrollLeft
    requires elementLeft + elementWidth + ARROW_BUTTON_SIZE <= scrollLeft + clientWidth
    ensures ScrollTabIntoView(clientWidth, scrollWidth, scrollLeft, elementLeft, elementWidth) ==
            Some(elementLeft + elementWidth - clientWidth + ARROW_BUTTON_SIZE)
  {
  }

  /** Once scrolled where the decision asks, a tab that fits in the view together with the
      room for both arrow buttons needs no further scrolling. */
  lemma ScrollSettles(clientWidth: int, scrollWidth: int, scrollLeft: int,
                      elementLeft: int, elementWidth: int)
    requires 0 <= elementWidth && elementWidth + 2 * ARROW_BUTTON_SIZE <= clientWidth
    requires ScrollTabIntoView(clientWidth, scrollWidth, scrollLeft, elementLeft, elementWidth).Some?
    ensures ScrollTabIntoView(clientWidth, scrollWidth,
                              ScrollTabIntoView(clientWidth, scrollWidth, scrollLeft, elementLeft, elementWidth).value,
                              elementLeft, elementWidth) == None
  {
  }

  /** The tab strip's own state: the focused tab, and the coordinates of the tabs measured
      at the last resize. */
  class TabList {
    const disabled: seq<bool>
    /** PREV_BUTTON_WIDTH. */
    const prevButtonWidth: int
    var focusDirty: bool
    var focusIndex: int
    var tabCoordinates: seq<Coord>
    var showNextButton: bool
    var showPrevButton: bool

    constructor (disabled: seq<bool>, selected: seq<bool>, prevButtonWidth: int)
      ensures this.disabled == disabled && this.prevButtonWidth == prevButtonWidth
      ensures !focusDirty && focusIndex == FirstSelected(selected) && tabCoordinates == []
      ensures !showNextButton && !showPrevButton
    {
      this.disabled := disabled;
      this.prevButtonWidth := prevButtonWidth;
      focusDirty := false;
      focusIndex := FirstSelected(selected);
      tabCoordinates := [];
      showNextButton := false;
      showPrevButton := false;
    }

    /** `updateArrows`, run on every scroll of the strip; `scrollLeft` is the strip's
        scroll offset already rounded up. The next button shows while the strip can scroll
        further right, the previous button once it has scrolled away from the start. */
    method UpdateArrows(scrollLeft: int, scrollWidth: int, clientWidth: int)
      modifies this`showNextButton, this`showPrevButton
      ensures showNextButton <==> scrollLeft < scrollWidth - clientWidth
      ensures showPrevButton <==> scrollLeft > 0
    {
      var maxContainerScroll := scrollWidth - clientWidth;
      showNextButton := scrollLeft < maxContainerScroll;
      showPrevButton := scrollLeft > 0;
    }

    /** `handleTabFocus`. */
    method HandleTabFocus(tabIndex: int)
      modifies this`focusDirty, this`focusIndex
      ensures focusDirty && focusIndex == tabIndex
    {
      focusDirty := true;
      focusIndex := tabIndex;
    }

    /** `handleKeyDown`: arrows move to the nearest enabled tab, Home and End to the first
        and last tab whether enabled or not, other keys are ignored. */
    method HandleKeyDown(key: Key)
      modifies this`focusIndex
      ensures key == ArrowLeft ==> IsPrevEnabled(DisabledIndexesOf(disabled), old(focusIndex), focusIndex)
      ensures key == ArrowRight ==> IsNextEnabled(DisabledIndexesOf(disabled), old(focusIndex), |disabled|, focusIndex)
      ensures key == Home ==> focusIndex == 0
      ensures key == End ==> focusIndex == |disabled| - 1
      ensures key == OtherKey ==> focusIndex == old(focusIndex)
    {
      var disabledIndexes := DisabledIndexes(disabled);
      match key
      case ArrowLeft =>
        focusIndex := PrevEnabled(disabledIndexes, focusIndex);
      case ArrowRight =>
        focusIndex := NextEnabled(disabledIndexes, focusIndex, |disabled|);
      case Home =>
        focusIndex := 0;
      case End =>
        focusIndex := |disabled| - 1;
      case OtherKey =>
    }

    /** The resize handler: record each tab's left edge and its right edge (left edge plus
        width), in order. */
    method HandleResize(offsetLefts: seq<int>, clientWidths: seq<int>)
      requires |offsetLefts| == |clientWidths|
      modifies this`tabCoordinates
      ensures |tabCoordinates| == |offsetLefts|
      ensures forall i :: 0 <= i < |offsetLefts| ==>
        tabCoordinates[i] == Coord(offsetLefts[i], offsetLefts[i] + clientWidths[i])
    {
      var coordinates: seq<Coord> := [];
      var index := 0;
      while index < |offsetLefts|
        invariant 0 <= index <= |offsetLefts| && |coordinates| == index
        invariant forall i :: 0 <= i < index ==>
          coordinates[i] == Coord(offsetLefts[i], offsetLefts[i] + clientWidths[i])
      {
        coordinates := coordinates + [Coord(offsetLefts[index], offsetLefts[index] + clientWidths[index])];
        index := index + 1;
      }
      tabCoordinates := coordinates;
    }

    /** `navigateTabs`: the position the strip is asked to scroll to, or None when the scan
        finds no tab. Forward, the last tab wholly left of the next button is found and the
        strip scrolls so that the tab after it starts just right of the previous button;
        backward, the first tab wholly right of the previous button is found and the strip
        scrolls so that the tab before it ends just left of the next button. The tabs'
        edges are those measured at the last resize. */
    method NavigateTabs(direction: int, clientWidth: int, scrollLeft: int) returns (scrollTo: Option<int>)
      requires direction == 1 || direction == -1
      ensures direction == 1 ==>
        var last := LastEndingBy(tabCoordinates, clientWidth + scrollLeft - prevButtonWidth);
        scrollTo == if last == -1 then None
                    else Some(tabCoordinates[Min(last + 1, |tabCoordinates| - 1)].left - prevButtonWidth)
      ensures direction == -1 ==>
        var first := FirstStartingFrom(tabCoordinates, scrollLeft + prevButtonWidth);
        scrollTo == if first == -1 then None
                    else Some(tabCoordinates[Max(first - 1, 0)].right - clientWidth + prevButtonWidth)
    {
      scrollTo := None;
      if direction == 1 {
        var targetPosition := clientWidth + scrollLeft - prevButtonWidth;
        var index := |tabCoordinates| - 1;
        while index > -1
          invariant -1 <= index < |tabCoordinates|
          invariant forall j :: index < j < |tabCoordinates| ==> !EndsBy(tabCoordinates[j], targetPosition)
          invariant scrollTo == None
        {
          var element := tabCoordinates[index];
          if targetPosition > element.left && targetPosition >= element.right {
            assert LastEndingBy(tabCoordinates, targetPosition) == index;
            var targetIndex := Min(index + 1, |tabCoordinates| - 1);
            var tabLeftBoundary := tabCoordinates[targetIndex].left;
            scrollTo := Some(tabLeftBoundary - prevButtonWidth);
            break;
          }
          index := index - 1;
        }
      } else {
        var targetPosition := scrollLeft + prevButtonWidth;
        var index := 0;
        while index < |tabCoordinates|
          invariant 0 <= index <= |tabCoordinates|
          invariant forall j :: 0 <= j < index ==> !StartsFrom(tabCoordinates[j], targetPosition)
          invariant scrollTo == None
        {
          var element := tabCoordinates[index];
          if targetPosition <= element.left {
            assert FirstStartingFrom(tabCoordinates, targetPosition) == index;
            var targetIndex := Max(index - 1, 0);
            var tabRightBoundary := tabCoordinates[targetIndex].right;
            scrollTo := Some(tabRightBoundary - clientWidth + prevButtonWidth);
            break;
          }
          index := index + 1;
        }
      }
    }
  }
}
