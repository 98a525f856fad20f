/** The navigation engine of the Carousel component (src/components/Carousel/index.tsx).

    The first half of the module states, as functions on plain values, what each handler
    computes: the page and item a navigation request lands on, the geometry a resize
    derives from the container width, and the item a drag release snaps to. Lemmas about
    those functions carry the component's promises. The second half is the component
    itself, a class whose fields are its React state and whose methods are its handlers
    and effects, each proved to compute what the first half says. */
module CarouselEngine {
  import opened Coordinates
  import UseTimer

  /** Horizontal gap between two items, in pixels. */
  const GAP_WIDTH: int := 16
  /** `handleResize` subtracts the container's right padding from its width. */
  const CONTAINER_RIGHT_PADDING: int := 8
  const DEFAULT_ITEM_WIDTH: int := 300
  const DEFAULT_AUTOPLAY_INTERVAL: int := 5000

  datatype SnapType = ItemSnap | PageSnap

  datatype PaginationType = Indicator | Scrollbar | NoPagination

  /** The pair of state fields every navigation writes. */
  datatype Nav = Nav(currentPage: int, targetIndex: int)

  function Abs(x: int): (r: int)
    ensures r >= 0 && (r == x || r == -x)
  {
    if x < 0 then -x else x
  }

  // ---------------------------------------------------------------------------------
  // navigateByPage, navigateByIndex, navigateByDirection, autoplayIntervalFn

  /** The item `navigateByPage(page)` targets: the first item of the page under page snap,
      the item with the page's number under item snap. */
  function PageTarget(snap: SnapType, itemsPerPage: int, page: int): int {
    if snap == PageSnap then itemsPerPage * page else page
  }

  /** The page `navigateByIndex(index)` goes to. Under page snap it is the page that holds
      the item; under item snap it is the item's own number, capped at the last page. */
  function IndexPage(snap: SnapType, itemsPerPage: int, totalPages: int, index: int): (page: int)
    requires itemsPerPage >= 1
    ensures snap == PageSnap ==> itemsPerPage * page <= index < itemsPerPage * page + itemsPerPage
    ensures snap == ItemSnap ==> page <= totalPages - 1 && (index <= totalPages - 1 ==> page == index)
    ensures snap == ItemSnap && index > totalPages - 1 ==> page == totalPages - 1
  {
    if snap == PageSnap then index / itemsPerPage else Min(index, totalPages - 1)
  }

  /** What `navigateByPage(page)` sets. */
  function PageNavigation(snap: SnapType, itemsPerPage: int, page: int): Nav {
    Nav(page, PageTarget(snap, itemsPerPage, page))
  }

  /** What `navigateByIndex(index)` sets. */
  function IndexNavigation(snap: SnapType, itemsPerPage: int, totalPages: int, index: int): Nav
    requires itemsPerPage >= 1
  {
    PageNavigation(snap, itemsPerPage, IndexPage(snap, itemsPerPage, totalPages, index))
  }

  /** Under page snap the targeted item of a page lies on that page: navigating to the
      item `navigateByPage` chose lands on the same page. */
  lemma PageTargetOnPage(snap: SnapType, itemsPerPage: int, totalPages: int, page: int)
    requires itemsPerPage >= 1
    requires snap == PageSnap || 0 <= page <= totalPages - 1
    ensures IndexNavigation(snap, itemsPerPage, totalPages, PageTarget(snap, itemsPerPage, page))
            == PageNavigation(snap, itemsPerPage, page)
  {
    if snap == PageSnap {
      var q := IndexPage(snap, itemsPerPage, totalPages, itemsPerPage * page);
      PageUnique(itemsPerPage, q, page);
    }
  }

  /** Pages are `itemsPerPage` items apart: a later page starts at least one page later. */
  lemma MulGap(itemsPerPage: int, a: int, b: int)
    requires itemsPerPage >= 1 && a > b
    ensures itemsPerPage * a >= itemsPerPage * b + itemsPerPage
  {
    assert itemsPerPage * (a - b - 1) >= 0;
    assert itemsPerPage * a == itemsPerPage * b + itemsPerPage * (a - b - 1) + itemsPerPage;
  }

  /** The page holding an item is unique: two pages whose ranges both contain the first
      item of the second are the same page. */
  lemma PageUnique(itemsPerPage: int, q: int, page: int)
    requires itemsPerPage >= 1
    requires itemsPerPage * q <= itemsPerPage * page < itemsPerPage * q + itemsPerPage
    ensures q == page
  {
    if q < page {
      MulGap(itemsPerPage, page, q);
    } else if q > page {
      MulGap(itemsPerPage, q, page);
    }
  }

  /** Quotient and remainder are unique. */
  lemma DivModUnique(t: int, m: int, q: int, r: int)
    requires m >= 1 && t == m * q + r && 0 <= r < m
    ensures t / m == q && t % m == r
  {
    var q0, r0 := t / m, t % m;
    assert t == m * q0 + r0;
    if q0 > q {
      MulGap(m, q0, q);
    } else if q0 < q {
      MulGap(m, q, q0);
    }
  }

  /** The page the previous/next buttons go to when the pagination is not a scrollbar.
      Without autoplay the step stops at either end; with autoplay it wraps around. */
  function IndicatorStep(autoplay: bool, currentPage: int, totalPages: int, direction: int): (page: int)
    requires direction == 1 || direction == -1
    ensures 0 <= currentPage < totalPages ==> 0 <= page < totalPages
    ensures 0 <= currentPage + direction < totalPages ==> page == currentPage + direction
    ensures !autoplay && 0 <= currentPage < totalPages && !(0 <= currentPage + direction < totalPages)
            ==> page == currentPage
    ensures autoplay && direction == 1 && currentPage == totalPages - 1 ==> page == 0
    ensures autoplay && direction == -1 && currentPage == 0 ==> page == totalPages - 1
  {
    if direction == 1 then
      if autoplay && currentPage + 1 > totalPages - 1 then 0
      else Min(currentPage + 1, totalPages - 1)
    else
      if autoplay && currentPage - 1 < 0 then totalPages - 1
      else Max(currentPage - 1, 0)
  }

  /** The item the previous/next buttons go to when the pagination is a scrollbar: one
      page (`itemsPerPage` items) before or after the first item that starts inside the
      visible window, kept inside the list; item 0 when no item starts there. */
  function ScrollbarStepTarget(coords: seq<Coord>, leftPosition: int, itemsPerPage: int, direction: int)
    : (index: int)
    requires itemsPerPage >= 1
    requires direction == 1 || direction == -1
    ensures |coords| > 0 ==> 0 <= index < |coords|
    ensures FirstStartingFrom(coords, leftPosition) == -1 ==> index == 0
    ensures var first := FirstStartingFrom(coords, leftPosition);
            first >= 0 && direction == 1 ==>
              first <= index && (index == first + itemsPerPage || index == |coords| - 1)
    ensures var first := FirstStartingFrom(coords, leftPosition);
            first >= 0 && direction == -1 ==>
              index <= first && (index == first - itemsPerPage || index == 0)
  {
    var first := FirstStartingFrom(coords, leftPosition);
    if first == -1 then 0
    else if direction == 1 then Min(first + itemsPerPage, |coords| - 1)
    else Max(first - itemsPerPage, 0)
  }

  /** What `navigateByDirection(direction)` sets, given the list's current left edge. */
  function DirectionNavigation(snap: SnapType, pagination: PaginationType, autoplay: bool,
                               coords: seq<Coord>, itemsPerPage: int, totalPages: int,
                               nav: Nav, leftPosition: int, direction: int): Nav
    requires itemsPerPage >= 1
    requires direction == 1 || direction == -1
  {
    if pagination == Scrollbar then
      IndexNavigation(snap, itemsPerPage, totalPages,
                      ScrollbarStepTarget(coords, leftPosition, itemsPerPage, direction))
    else
      PageNavigation(snap, itemsPerPage, IndicatorStep(autoplay, nav.currentPage, totalPages, direction))
  }

  /** The page one autoplay tick (`autoplayIntervalFn`) goes to outside scrollbar mode:
      back to the first page from the last one, otherwise the next page. */
  function AutoplayPage(autoplay: bool, currentPage: int, totalPages: int): (page: int)
    ensures 0 <= currentPage < totalPages ==> page == (currentPage + 1) % totalPages
  {
    if currentPage == totalPages - 1 then 0
    else IndicatorStep(autoplay, currentPage, totalPages, 1)
  }

  /** The page after `ticks` autoplay ticks from the first page. */
  function AutoplayPageAfter(autoplay: bool, totalPages: int, ticks: nat): int {
    if ticks == 0 then 0
    else AutoplayPage(autoplay, AutoplayPageAfter(autoplay, totalPages, ticks - 1), totalPages)
  }

  /** Autoplay cycles through the pages: after `ticks` ticks it shows page
      `ticks % totalPages`, so after `totalPages` ticks it is back on the first page. */
  lemma {:induction false} AutoplayCycles(autoplay: bool, totalPages: int, ticks: nat)
    requires totalPages >= 1
    ensures AutoplayPageAfter(autoplay, totalPages, ticks) == ticks % totalPages
  {
    if ticks > 0 {
      AutoplayCycles(autoplay, totalPages, ticks - 1);
      var p := (ticks - 1) % totalPages;
      assert (p + 1) % totalPages == ticks % totalPages by {
        ModSucc(ticks - 1, totalPages);
      }
    }
  }

  lemma ModSucc(t: nat, m: int)
    requires m >= 1
    ensures (t % m + 1) % m == (t + 1) % m
  {
    var q, r := t / m, t % m;
    assert t == m * q + r;
    if r + 1 == m {
      DivModUnique(t + 1, m, q + 1, 0);
      DivModUnique(r + 1, m, 1, 0);
    } else {
      DivModUnique(t + 1, m, q, r + 1);
      DivModUnique(r + 1, m, 0, r + 1);
    }
  }

  // ---------------------------------------------------------------------------------
  // handleResize and the effects that follow it

  /** The item width a resize settles on: the container width for full-width items,
      otherwise the configured width capped at the container width. */
  function FinalItemWidth(isFullWidth: bool, itemWidth: int, containerClientWidth: int): (w: int)
    ensures w <= containerClientWidth
    ensures isFullWidth ==> w == containerClientWidth
    ensures !isFullWidth && itemWidth <= containerClientWidth ==> w == itemWidth
  {
    if isFullWidth then containerClientWidth else Min(itemWidth, containerClientWidth)
  }

  /** The left edge `handleResize` assigns to item `index`. */
  function ItemLeft(itemWidth: int, index: int): int {
    if index > 0 then (itemWidth + GAP_WIDTH) * index else 0
  }

  /** The coordinate table of `n` items of width `itemWidth` laid out with `GAP_WIDTH`
      between them. */
  function Layout(n: nat, itemWidth: int): (coords: seq<Coord>)
    ensures |coords| == n
    ensures forall i :: 0 <= i < n ==>
      coords[i].left == (itemWidth + GAP_WIDTH) * i && coords[i].right == coords[i].left + itemWidth
  {
    if n == 0 then []
    else
      var left := ItemLeft(itemWidth, n - 1);
      Layout(n - 1, itemWidth) + [Coord(left, left + itemWidth)]
  }

  /** The last item that ends strictly inside the container, or -1. */
  function LastFitting(coords: seq<Coord>, containerClientWidth: int): (r: int)
    ensures -1 <= r < |coords|
    ensures r >= 0 ==> coords[r].right < containerClientWidth
    ensures forall j :: r < j < |coords| ==> coords[j].right >= containerClientWidth
  {
    if coords == [] then -1
    else if coords[|coords| - 1].right < containerClientWidth then |coords| - 1
    else LastFitting(coords[..|coords| - 1], containerClientWidth)
  }

  /** The number of items shown per page: one more than the last item that ends inside the
      container, and 1 when none does. */
  function FitCount(coords: seq<Coord>, containerClientWidth: int): (itemsPerPage: int)
    ensures 1 <= itemsPerPage
    ensures itemsPerPage <= Max(|coords|, 1)
  {
    var last := LastFitting(coords, containerClientWidth);
    if last >= 0 then last + 1 else 1
  }

  lemma MulMonotone(a: int, i: int, j: int)
    requires a >= 0 && i <= j
    ensures a * i <= a * j
  {
    assert a * (j - i) >= 0;
    assert a * j == a * i + a * (j - i);
  }

  /** In a laid-out list the items end further right the further down the list they are. */
  lemma LayoutRightMonotone(coords: seq<Coord>, itemWidth: int, i: int, j: int)
    requires coords == Layout(|coords|, itemWidth)
    requires itemWidth + GAP_WIDTH >= 0 && 0 <= i <= j < |coords|
    ensures coords[i].right <= coords[j].right
  {
    MulMonotone(itemWidth + GAP_WIDTH, i, j);
  }

  /** In a laid-out list the items that end inside the container are a prefix: when the
      first item fits, so do all the first `itemsPerPage` items. */
  lemma FirstItemsFit(coords: seq<Coord>, itemWidth: int, containerClientWidth: int)
    requires coords == Layout(|coords|, itemWidth)
    requires itemWidth + GAP_WIDTH >= 0
    ensures |coords| > 0 && coords[0].right < containerClientWidth ==>
              forall j :: 0 <= j < FitCount(coords, containerClientWidth) ==> coords[j].right < containerClientWidth
  {
    var last := LastFitting(coords, containerClientWidth);
    if |coords| > 0 && coords[0].right < containerClientWidth {
      forall j | 0 <= j < FitCount(coords, containerClientWidth)
        ensures coords[j].right < containerClientWidth
      {
        LayoutRightMonotone(coords, itemWidth, j, last);
      }
    }
  }

  /** The number of pages: `ceil(n / itemsPerPage)` under page snap, and under item snap one
      page per possible first item. */
  function PageCount(snap: SnapType, n: nat, itemsPerPage: int): int
    requires itemsPerPage >= 1
  {
    if snap == PageSnap then (n + itemsPerPage - 1) / itemsPerPage
    else n - (itemsPerPage - 1)
  }

  /** Under page snap `PageCount` is the ceiling of `n / itemsPerPage`: the pages before
      the last hold fewer than `n` items and all pages together hold at least `n`. */
  lemma PageCountIsCeiling(n: nat, itemsPerPage: int)
    requires itemsPerPage >= 1
    ensures var pages := PageCount(PageSnap, n, itemsPerPage);
            pages >= 0 && (n == 0 <==> pages == 0) &&
            itemsPerPage * (pages - 1) < n <= itemsPerPage * pages
  {
    var pages := PageCount(PageSnap, n, itemsPerPage);
    var rem := (n + itemsPerPage - 1) % itemsPerPage;
    assert n + itemsPerPage - 1 == itemsPerPage * pages + rem;
    assert itemsPerPage * (pages - 1) == itemsPerPage * pages - itemsPerPage;
  }

  /** `maxTranslateX` after a resize: the left edge of the first item of the last page,
      or `None` when that item does not exist and the old value stays. */
  function MaxTranslateFor(coords: seq<Coord>, itemsPerPage: int, totalPages: int): Option<int> {
    var index := Min(itemsPerPage * (totalPages - 1), |coords| - 1);
    if 0 <= index < |coords| then Some(coords[index].left) else None
  }

  /** What `handleResize` derives from the container width. */
  datatype Geometry = Geometry(
    containerClientWidth: int,
    finalItemWidth: int,
    coords: seq<Coord>,
    itemsPerPage: int,
    totalPages: int,
    maxTranslateX: Option<int>)

  function ResizeGeometry(snap: SnapType, isFullWidth: bool, itemWidth: int, n: nat, containerWidth: int)
    : Geometry
  {
    var cw := containerWidth - CONTAINER_RIGHT_PADDING;
    var w := FinalItemWidth(isFullWidth, itemWidth, cw);
    var coords := Layout(n, w);
    var fit := FitCount(coords, cw);
    var pages := PageCount(snap, n, fit);
    var perPage := if snap == PageSnap then fit else 1;
    Geometry(cw, w, coords, perPage, pages, MaxTranslateFor(coords, perPage, pages))
  }

  /** What a resize promises about the pages: at least one item per page; with items, at
      least one page; under page snap the pages are the `ceil(n / itemsPerPage)` pages of
      `itemsPerPage` items; under item snap one page per first item from 0 to
      `n - fit`, where `fit` items fit in the container; and `maxTranslateX` is then the left
      edge of the first item of the last page, which always exists. */
  lemma ResizePages(snap: SnapType, isFullWidth: bool, itemWidth: int, n: nat, containerWidth: int)
    ensures var g := ResizeGeometry(snap, isFullWidth, itemWidth, n, containerWidth);
            g.itemsPerPage >= 1 && |g.coords| == n &&
            (snap == PageSnap ==> g.itemsPerPage * (g.totalPages - 1) < n <= g.itemsPerPage * g.totalPages) &&
            (snap == ItemSnap ==>
               g.itemsPerPage == 1 && g.totalPages == n - FitCount(g.coords, g.containerClientWidth) + 1) &&
            (n > 0 ==>
               1 <= g.totalPages && 0 <= g.itemsPerPage * (g.totalPages - 1) < n &&
               g.maxTranslateX == Some(g.coords[g.itemsPerPage * (g.totalPages - 1)].left)) &&
            (n == 0 ==> g.maxTranslateX == None)
  {
    var g := ResizeGeometry(snap, isFullWidth, itemWidth, n, containerWidth);
    if snap == PageSnap {
      PageCountIsCeiling(n, g.itemsPerPage);
      if n > 0 {
        assert 0 <= g.itemsPerPage * (g.totalPages - 1) by {
          assert g.totalPages - 1 >= 0;
        }
      }
    }
  }

  /** With items and a fit count between 1 and the item count, the first item of the
      last page exists, so `maxTranslateX` is always updated by a resize. */
  lemma LastPageStartExists(snap: SnapType, n: nat, fit: int)
    requires 1 <= fit <= n
    ensures var perPage := if snap == PageSnap then fit else 1;
            var pages := PageCount(snap, n, fit);
            1 <= pages && 0 <= perPage * (pages - 1) < n
  {
    if snap == PageSnap {
      PageCountIsCeiling(n, fit);
      var pages := PageCount(snap, n, fit);
      MulMonotone(fit, 0, pages - 1);
    }
  }

  /** A resize of a non-empty carousel always finds the first item of its last page. */
  lemma MaxTranslateFound(snap: SnapType, coords: seq<Coord>, fit: int, perPage: int, pages: int)
    requires 1 <= fit <= |coords|
    requires perPage == (if snap == PageSnap then fit else 1) && pages == PageCount(snap, |coords|, fit)
    ensures MaxTranslateFor(coords, perPage, pages) == Some(coords[perPage * (pages - 1)].left)
  {
    LastPageStartExists(snap, |coords|, fit);
  }

  /** The clamp that follows a resize: a current page past the last page moves to the last
      page; any other page stays. */
  function ClampPage(currentPage: int, totalPages: int): (page: int)
    ensures page <= totalPages - 1
    ensures currentPage <= totalPages - 1 ==> page == currentPage
    ensures currentPage > totalPages - 1 ==> page == totalPages - 1
  {
    if currentPage > totalPages - 1 then totalPages - 1 else currentPage
  }

  /** The arrow buttons `updateArrows` shows, given the list's transform value. */
  datatype Arrows = Arrows(showNext: bool, showPrev: bool)

  function ArrowsFor(autoplay: bool, translateX: int, maxTranslateX: int): (a: Arrows)
    ensures a.showNext <==> autoplay || Abs(translateX) < maxTranslateX
    ensures a.showPrev <==> autoplay || translateX != 0
  {
    var offset := Abs(translateX);
    Arrows(autoplay || offset < maxTranslateX, autoplay || offset > 0)
  }

  /** The transform value the target effect writes: minus the targeted item's left edge,
      or the current value when no item has that index. */
  function TargetTranslate(coords: seq<Coord>, targetIndex: int, translateX: int): int {
    if 0 <= targetIndex < |coords| then -coords[targetIndex].left else translateX
  }

  /** Page `page` of a laid-out list under page snap starts `(itemWidth + GAP_WIDTH)`
      pixels per item from the list's start. */
  lemma PageStartOffset(coords: seq<Coord>, itemWidth: int, itemsPerPage: int, page: int, translateX: int)
    requires coords == Layout(|coords|, itemWidth)
    requires 0 <= itemsPerPage * page < |coords|
    ensures TargetTranslate(coords, PageTarget(PageSnap, itemsPerPage, page), translateX)
            == -((itemWidth + GAP_WIDTH) * (itemsPerPage * page))
  {
  }

  /** On a laid-out list under page snap, after `ticks` autoplay ticks the list shows page
      `ticks % totalPages`, offset by the width of the items before it: after `totalPages`
      ticks it is back at offset 0. The requirements are what `ResizePages` proves of
      every resize. */
  lemma AutoplayTranslate(autoplay: bool, coords: seq<Coord>, itemWidth: int, itemsPerPage: int,
                          totalPages: int, ticks: nat, translateX: int)
    requires coords == Layout(|coords|, itemWidth)
    requires 1 <= itemsPerPage && 1 <= totalPages && itemsPerPage * (totalPages - 1) < |coords|
    ensures var page := AutoplayPageAfter(autoplay, totalPages, ticks);
            page == ticks % totalPages &&
            TargetTranslate(coords, PageTarget(PageSnap, itemsPerPage, page), translateX)
              == -((itemWidth + GAP_WIDTH) * (itemsPerPage * (ticks % totalPages)))
  {
    AutoplayCycles(autoplay, totalPages, ticks);
    var page := ticks % totalPages;
    MulMonotone(itemsPerPage, 0, page);
    MulMonotone(itemsPerPage, page, totalPages - 1);
    PageStartOffset(coords, itemWidth, itemsPerPage, page, translateX);
  }

  // ---------------------------------------------------------------------------------
  // Dragging: handleMouseMove/handleTouchMove and handleMouseUpTouchEnd

  /** The offset a drag move shows: the offset at drag start plus the pointer's travel,
      kept between 0 and the list width minus the first item's width. */
  function DragOffset(initialPosition: int, dragStartPosition: int, pointerX: int,
                      listWidth: int, firstItemWidth: int): (offset: int)
    ensures offset <= listWidth - firstItemWidth
    ensures firstItemWidth <= listWidth ==> 0 <= offset
    ensures 0 <= initialPosition + (dragStartPosition - pointerX) <= listWidth - firstItemWidth ==>
      offset == initialPosition + (dragStartPosition - pointerX)
  {
    Clamp(initialPosition + (dragStartPosition - pointerX), 0, listWidth - firstItemWidth)
  }

  function Width(c: Coord): int {
    c.right - c.left
  }

  /** After a forward drag: the last item that ends left of the window's right edge, or the
      item after it when at least half an item's width of that one is visible. */
  function ForwardReleaseTarget(coords: seq<Coord>, rightPosition: int): (index: int)
    ensures |coords| > 0 ==> 0 <= index < |coords|
    ensures var last := LastEndingBy(coords, rightPosition);
            (last == -1 ==> index == 0) &&
            (last >= 0 ==> index == last || index == last + 1) &&
            (0 <= last && last + 1 < |coords| ==>
              (index == last + 1 <==> 2 * rightPosition >= 2 * coords[last + 1].left + Width(coords[last])))
  {
    var last := LastEndingBy(coords, rightPosition);
    if last == -1 then 0
    else
      var next := Min(last + 1, |coords| - 1);
      if 2 * rightPosition < 2 * coords[next].left + Width(coords[last]) then last else next
  }

  /** After a backward drag: the first item that starts right of the window's left edge, or
      the item before it when at least half an item's width of that one is visible. The
      half-width is that of the first item, not of the one before it. */
  function BackwardReleaseTarget(coords: seq<Coord>, leftPosition: int): (index: int)
    ensures |coords| > 0 ==> 0 <= index < |coords|
    ensures var first := FirstStartingFrom(coords, leftPosition);
            (first <= 0 ==> index == 0) &&
            (first >= 1 ==> index == first || index == first - 1) &&
            (first >= 1 ==>
              (index == first - 1 <==> 2 * leftPosition <= 2 * coords[first - 1].left + Width(coords[first])))
  {
    var first := FirstStartingFrom(coords, leftPosition);
    if first == -1 then 0
    else
      var prev := Max(first - 1, 0);
      if 2 * leftPosition > 2 * coords[prev].left + Width(coords[first]) then first else prev
  }

  /** The item a release navigates to, or `None` when the list has not moved since the
      drag started. */
  function ReleaseTarget(coords: seq<Coord>, initialPosition: int, leftPosition: int,
                         containerWidth: int): (target: Option<int>)
    ensures target == None <==> leftPosition == initialPosition
    ensures leftPosition > initialPosition ==>
      target == Some(ForwardReleaseTarget(coords, leftPosition + containerWidth))
    ensures leftPosition < initialPosition ==>
      target == Some(BackwardReleaseTarget(coords, leftPosition))
  {
    if leftPosition == initialPosition then None
    else if leftPosition > initialPosition then
      Some(ForwardReleaseTarget(coords, leftPosition + containerWidth))
    else Some(BackwardReleaseTarget(coords, leftPosition))
  }

  /** One whole drag gesture on a list at rest: press at `startX` (the offset at that
      moment becomes `initialPosition`), one move to `endX`, release, and the target effect
      that runs once dragging has stopped. The result is the new navigation state and the
      list's transform value. */
  function DragGesture(g: Geometry, snap: SnapType, nav: Nav, translateX: int,
                       startX: int, endX: int, listWidth: int, containerWidth: int): (Nav, int)
    requires g.itemsPerPage >= 1 && |g.coords| > 0
  {
    var initialPosition := Abs(translateX);
    var moved := -DragOffset(initialPosition, startX, endX, listWidth, Width(g.coords[0]));
    var nav' := match ReleaseTarget(g.coords, initialPosition, -moved, containerWidth)
                case None => nav
                case Some(index) => IndexNavigation(snap, g.itemsPerPage, g.totalPages, index);
    (nav', TargetTranslate(g.coords, nav'.targetIndex, moved))
  }

  /** The container width and list width of the component's tests: 20 items of the default
      width, with room for three of them. */
  const TEST_ITEMS: nat := 20
  const TEST_CONTAINER_WIDTH: int := (DEFAULT_ITEM_WIDTH + GAP_WIDTH) * 3
  const TEST_LIST_WIDTH: int := DEFAULT_ITEM_WIDTH * TEST_ITEMS + GAP_WIDTH * (TEST_ITEMS - 1)

  function TestGeometry(containerWidth: int): Geometry {
    ResizeGeometry(PageSnap, false, DEFAULT_ITEM_WIDTH, TEST_ITEMS, containerWidth)
  }

  /** In the tests' container three items fit, so the 20 items make 7 pages and the last
      page starts at item 18. */
  lemma TestPages()
    ensures var g := TestGeometry(TEST_CONTAINER_WIDTH);
            g.finalItemWidth == DEFAULT_ITEM_WIDTH && g.itemsPerPage == 3 && g.totalPages == 7 &&
            g.maxTranslateX == Some((DEFAULT_ITEM_WIDTH + GAP_WIDTH) * 18)
  {
    var g := TestGeometry(TEST_CONTAINER_WIDTH);
    assert g.containerClientWidth == 940 && g.finalItemWidth == 300;
    var last := LastFitting(g.coords, 940);
    assert g.coords[2].right == 932;
    assert last == 2;
  }

  /** In a container twice as wide six items fit, so the 20 items make 4 pages. */
  lemma TestPagesWide()
    ensures var g := TestGeometry(2 * TEST_CONTAINER_WIDTH);
            g.itemsPerPage == 6 && g.totalPages == 4
  {
    var g := TestGeometry(2 * TEST_CONTAINER_WIDTH);
    assert g.containerClientWidth == 1888 && g.finalItemWidth == 300;
    var last := LastFitting(g.coords, 1888);
    assert g.coords[5].right == 1880;
    assert last == 5;
  }

  /** On the last of 7 pages, widening the container to 4 pages moves the carousel to the
      new last page: the items-per-page effect navigates to the page holding the targeted
      item, and the clamp leaves it there. */
  lemma TestResizeKeepsLastPage()
    ensures var g := TestGeometry(2 * TEST_CONTAINER_WIDTH);
            var nav := IndexNavigation(PageSnap, g.itemsPerPage, g.totalPages, 18);
            nav == Nav(3, 18) && ClampPage(nav.currentPage, g.totalPages) == g.totalPages - 1
  {
    TestPagesWide();
  }

  /** Under item snap the clamp that follows a resize moves only the current page. With
      the tests' 20 items on page 17 of 18, widening the container to 15 pages keeps one
      item per page, so the items-per-page effect does not run; the clamp moves the current
      page to 14 but leaves the targeted item at 17, and the target effect then moves the
      list to item 17's left edge, past the `maxTranslateX` of the new last page. */
  lemma ItemSnapWideningOvershoots(translateX: int)
    ensures var narrow := ResizeGeometry(ItemSnap, false, DEFAULT_ITEM_WIDTH, TEST_ITEMS, TEST_CONTAINER_WIDTH);
            var wide := ResizeGeometry(ItemSnap, false, DEFAULT_ITEM_WIDTH, TEST_ITEMS, 2 * TEST_CONTAINER_WIDTH);
            narrow.itemsPerPage == 1 && narrow.totalPages == 18 &&
            wide.itemsPerPage == 1 && wide.totalPages == 15 &&
            IndexNavigation(ItemSnap, 1, 18, 17) == Nav(17, 17) &&
            ClampPage(17, wide.totalPages) == 14 &&
            wide.maxTranslateX == Some(4424) &&
            TargetTranslate(wide.coords, 17, translateX) == -5372
  {
    var narrow := ResizeGeometry(ItemSnap, false, DEFAULT_ITEM_WIDTH, TEST_ITEMS, TEST_CONTAINER_WIDTH);
    assert narrow.containerClientWidth == 940 && narrow.finalItemWidth == 300;
    assert narrow.coords[2].right == 932;
    assert LastFitting(narrow.coords, 940) == 2;
    var wide := ResizeGeometry(ItemSnap, false, DEFAULT_ITEM_WIDTH, TEST_ITEMS, 2 * TEST_CONTAINER_WIDTH);
    assert wide.containerClientWidth == 1888 && wide.finalItemWidth == 300;
    assert wide.coords[5].right == 1880;
    assert LastFitting(wide.coords, 1888) == 5;
  }

  /** The drags of the tests, from the first page: 100 pixels to the left snaps back, 500
      pixels moves one page on; then from the second page 100 pixels to the right snaps
      back and 500 pixels returns to the first page. */
  lemma TestDrags()
    ensures var g := TestGeometry(TEST_CONTAINER_WIDTH);
            var page0 := (Nav(0, 0), 0);
            var page1 := (Nav(1, 3), -(DEFAULT_ITEM_WIDTH + GAP_WIDTH) * 3);
            DragGesture(g, PageSnap, page0.0, page0.1, 100, 0, TEST_LIST_WIDTH, TEST_CONTAINER_WIDTH) == page0 &&
            DragGesture(g, PageSnap, page0.0, page0.1, 500, 0, TEST_LIST_WIDTH, TEST_CONTAINER_WIDTH) == page1 &&
            DragGesture(g, PageSnap, page1.0, page1.1, 0, 100, TEST_LIST_WIDTH, TEST_CONTAINER_WIDTH) == page1 &&
            DragGesture(g, PageSnap, page1.0, page1.1, 0, 500, TEST_LIST_WIDTH, TEST_CONTAINER_WIDTH) == page0
  {
    TestPages();
    var g := TestGeometry(TEST_CONTAINER_WIDTH);
    var c := g.coords;
    assert c[1] == Coord(316, 616) && c[2] == Coord(632, 932) && c[3] == Coord(948, 1248);
    assert c[4] == Coord(1264, 1564);
    // 100 pixels forward: the window ends at 1048; item 2 is the last one inside it.
    var f1 := LastEndingBy(c, 1048);
    assert f1 == 2;
    // 500 pixels forward: the window ends at 1448; item 3 is the last one inside it.
    var f2 := LastEndingBy(c, 1448);
    assert f2 == 3;
    // 100 pixels back from 948: item 3 is the first one starting in the window.
    var b1 := FirstStartingFrom(c, 848);
    assert b1 == 3;
    // 500 pixels back from 948: item 2 is the first one starting in the window.
    var b2 := FirstStartingFrom(c, 448);
    assert b2 == 2;
  }

  /** The `forEach` of `handleResize`: give each item its coordinates and count how many
      end inside the container. */
  method MeasureItems(n: nat, itemWidth: int, containerClientWidth: int)
    returns (coordinates: seq<Coord>, itemsPerPage: int)
    ensures coordinates == Layout(n, itemWidth)
    ensures itemsPerPage == FitCount(coordinates, containerClientWidth)
  {
    coordinates := [];
    itemsPerPage := 1;
    var index := 0;
    while index < n
      invariant 0 <= index <= n
      invariant coordinates == Layout(index, itemWidth)
      invariant itemsPerPage == FitCount(coordinates, containerClientWidth)
    {
      var left := if index > 0 then (itemWidth + GAP_WIDTH) * index else 0;
      var right := left + itemWidth;
      if right < containerClientWidth {
        itemsPerPage := index + 1;
      }
      assert (coordinates + [Coord(left, right)])[..index] == coordinates;
      coordinates := coordinates + [Coord(left, right)];
      index := index + 1;
    }
  }

  // ---------------------------------------------------------------------------------
  // The component

  /** The Carousel component: its props as constants, its React state and the refs its
      handlers read (the coordinate table and the list's transform) as fields. A handler
      reads the state of the render it was created in, so each method reads the fields as
      they were on entry. Effects are methods the host calls once the state they depend on
      has changed. */
  class Carousel {
    const totalItems: nat
    const itemWidth: int
    const isFullWidth: bool
    const snapType: SnapType
    const paginationType: PaginationType
    const autoplay: bool
    /** The pausable countdown whose callback is the autoplay tick. */
    const timer: UseTimer.PausableTimer

    var containerClientWidth: int
    var finalItemWidth: int
    var coords: seq<Coord>
    var itemsPerPage: int
    var totalPages: int
    var currentPage: int
    var targetIndex: int
    var showNextButton: bool
    var showPrevButton: bool
    var isAutoplaying: bool
    var isAutoplayPaused: bool
    var maxTranslateX: int
    var initialPosition: int
    var dragStartPosition: int
    var isDragging: bool
    var isDragged: bool
    /** The value of the list's `translateX(...)` transform: minus its scroll offset. */
    var translateX: int

    ghost predicate Valid()
      reads this, timer
    {
      itemsPerPage >= 1 && |coords| == totalItems && timer.Valid() &&
      (isDragging ==> totalItems > 0)
    }

    function Position(): Nav
      reads this
    {
      Nav(currentPage, targetIndex)
    }

    /** The first render: the props and the initial value of every state field. */
    constructor (totalItems: nat, itemWidth: int, isFullWidth: bool, snapType: SnapType,
                 paginationType: PaginationType, autoplay: bool, autoplayInterval: int)
      ensures fresh(timer) && timer.Valid() && timer.Tracked() && timer.pending == []
      ensures timer.countdown == autoplayInterval
      ensures this.totalItems == totalItems && this.itemWidth == itemWidth && this.isFullWidth == isFullWidth
      ensures this.snapType == snapType && this.paginationType == paginationType && this.autoplay == autoplay
      ensures coords == [] && itemsPerPage == 1 && totalPages == 1 && maxTranslateX == 0
      ensures Position() == Nav(0, 0) && translateX == 0 && !isDragging && !isDragged
      ensures !isAutoplaying && !isAutoplayPaused
    {
      this.totalItems := totalItems;
      this.itemWidth := itemWidth;
      this.isFullWidth := isFullWidth;
      this.snapType := snapType;
      this.paginationType := paginationType;
      this.autoplay := autoplay;
      timer := new UseTimer.PausableTimer(autoplayInterval);
      containerClientWidth := 0;
      finalItemWidth := itemWidth;
      coords := [];
      itemsPerPage := 1;
      totalPages := 1;
      currentPage := 0;
      targetIndex := 0;
      showNextButton := false;
      showPrevButton := false;
      isAutoplaying := false;
      isAutoplayPaused := false;
      maxTranslateX := 0;
      initialPosition := 0;
      dragStartPosition := 0;
      isDragging := false;
      isDragged := false;
      translateX := 0;
    }

    /** The mount effects: the first `handleResize` (skipped when there are no items,
        since nothing is rendered then), and `isAutoplaying` taking the `autoplay` prop,
        which starts the countdown at time `now`. */
    method Mount(containerWidth: int, now: int)
      requires coords == [] && itemsPerPage >= 1 && !isDragging && timer.Valid() && timer.Tracked() && timer.pending == []
      modifies this, timer
      ensures Valid() && Position() == old(Position()) && translateX == old(translateX)
      ensures !isDragging && isDragged == old(isDragged) && isAutoplayPaused == old(isAutoplayPaused)
      ensures totalItems > 0 ==>
        containerClientWidth == containerWidth - CONTAINER_RIGHT_PADDING &&
        finalItemWidth == FinalItemWidth(isFullWidth, itemWidth, containerClientWidth) &&
        coords == Layout(totalItems, finalItemWidth) &&
        itemsPerPage == (if snapType == PageSnap then FitCount(coords, containerClientWidth) else 1) &&
        totalPages == PageCount(snapType, totalItems, FitCount(coords, containerClientWidth)) &&
        Some(maxTranslateX) == MaxTranslateFor(coords, itemsPerPage, totalPages)
      ensures isAutoplaying == autoplay
      ensures timer.Tracked() && |timer.pending| == (if autoplay then 1 else 0)
    {
      if totalItems > 0 {
        Resize(containerWidth);
        MaxTranslateFound(snapType, coords, FitCount(coords, containerClientWidth), itemsPerPage, totalPages);
      }
      AutoplayPropEffect(now);
    }

    /** The effect on `autoplay` sets `isAutoplaying`, and the timer effect that follows
        starts the countdown when it is set. */
    method AutoplayPropEffect(now: int)
      requires timer.Valid() && timer.Tracked() && timer.pending == []
      modifies this`isAutoplaying, timer
      ensures isAutoplaying == autoplay && timer.Valid()
      ensures timer.Tracked() && |timer.pending| == (if autoplay then 1 else 0)
    {
      isAutoplaying := autoplay;
      if isAutoplaying {
        timer.StartTimer(now);
      }
    }

    /** `navigateByPage`. */
    method NavigateByPage(page: int)
      modifies this`currentPage, this`targetIndex
      ensures Position() == PageNavigation(snapType, itemsPerPage, page)
    {
      var index := if snapType == PageSnap then itemsPerPage * page else page;
      targetIndex := index;
      currentPage := page;
    }

    /** `navigateByIndex`. */
    method NavigateByIndex(index: int)
      requires itemsPerPage >= 1
      modifies this`currentPage, this`targetIndex
      ensures Position() == IndexNavigation(snapType, itemsPerPage, totalPages, index)
    {
      var newCurrentPage := if snapType == PageSnap then index / itemsPerPage else Min(index, totalPages - 1);
      NavigateByPage(newCurrentPage);
    }

    /** `navigateByDirection`: in scrollbar mode a scan for the first item starting in the
        window, otherwise a page step. */
    method NavigateByDirection(direction: int)
      requires Valid() && (direction == 1 || direction == -1)
      modifies this`currentPage, this`targetIndex
      ensures Position() == DirectionNavigation(snapType, paginationType, autoplay, coords, itemsPerPage,
                                                totalPages, old(Position()), -translateX, direction)
    {
      var leftPosition := -translateX;
      if paginationType == Scrollbar {
        var target := 0;
        var i := 0;
        while i < totalItems
          invariant 0 <= i <= totalItems
          invariant forall j :: 0 <= j < i ==> !StartsFrom(coords[j], leftPosition)
          invariant target == 0
        {
          var item := coords[i];
          if leftPosition <= item.left {
            assert FirstStartingFrom(coords, leftPosition) == i;
            target := if direction == 1 then Min(i + itemsPerPage, totalItems - 1) else Max(i - itemsPerPage, 0);
            break;
          }
          i := i + 1;
        }
        assert target == ScrollbarStepTarget(coords, leftPosition, itemsPerPage, direction);
        NavigateByIndex(target);
      } else {
        var newPage := 0;
        if direction == 1 {
          if autoplay && currentPage + 1 > totalPages - 1 {
            newPage := 0;
          } else {
            newPage := Min(currentPage + 1, totalPages - 1);
          }
        } else {
          if autoplay && currentPage - 1 < 0 {
            newPage := totalPages - 1;
          } else {
            newPage := Max(currentPage - 1, 0);
          }
        }
        NavigateByPage(newPage);
      }
    }

    /** `autoplayIntervalFn`, the callback of the autoplay countdown. */
    method AutoplayTick()
      requires Valid()
      modifies this`currentPage, this`targetIndex
      ensures old(currentPage) == totalPages - 1 ==> Position() == PageNavigation(snapType, itemsPerPage, 0)
      ensures old(currentPage) != totalPages - 1 ==>
        Position() == DirectionNavigation(snapType, paginationType, autoplay, coords, itemsPerPage,
                                          totalPages, old(Position()), -translateX, 1)
    {
      if currentPage == totalPages - 1 {
        NavigateByPage(0);
      } else {
        NavigateByDirection(1);
      }
    }

    /** The host runs the oldest pending timeout of the countdown: the autoplay tick. */
    method TimerFires()
      requires Valid()
      modifies this`currentPage, this`targetIndex, timer`pending
      ensures Valid()
      ensures old(timer.pending) == [] ==> Position() == old(Position()) && timer.pending == []
      ensures old(timer.pending) != [] ==>
        timer.pending == old(timer.pending)[1..] &&
        (old(currentPage) == totalPages - 1 ==> Position() == PageNavigation(snapType, itemsPerPage, 0)) &&
        (old(currentPage) != totalPages - 1 ==>
          Position() == DirectionNavigation(snapType, paginationType, autoplay, coords, itemsPerPage,
                                            totalPages, old(Position()), -translateX, 1))
    {
      var fired := timer.FireNext();
      if fired {
        AutoplayTick();
      }
    }

    /** `handleAutoplayButtonClick`. */
    method HandleAutoplayButtonClick()
      modifies this`isAutoplaying
      ensures isAutoplaying == !old(isAutoplaying)
    {
      isAutoplaying := !isAutoplaying;
    }

    /** `handleMouseEnter`: hovering pauses a running autoplay. */
    method HandleMouseEnter()
      modifies this`isAutoplayPaused
      ensures isAutoplayPaused == if isAutoplaying then true else old(isAutoplayPaused)
    {
      if isAutoplaying {
        isAutoplayPaused := true;
      }
    }

    /** `handleMouseLeave`. */
    method HandleMouseLeave()
      modifies this`isAutoplayPaused
      ensures isAutoplayPaused == if isAutoplaying then false else old(isAutoplayPaused)
    {
      if isAutoplaying {
        isAutoplayPaused := false;
      }
    }

    /** `handleMouseDown`: only the main button starts a drag, from the current offset. */
    method HandleMouseDown(button: int, clientX: int)
      requires Valid() && totalItems > 0
      modifies this`initialPosition, this`dragStartPosition, this`isDragging, this`isDragged
      ensures Valid()
      ensures button != 0 ==> unchanged(this)
      ensures button == 0 ==>
        initialPosition == Abs(translateX) && dragStartPosition == clientX && isDragging && !isDragged
    {
      if button != 0 {
        return;
      }
      initialPosition := Abs(translateX);
      dragStartPosition := clientX;
      isDragging := true;
      isDragged := false;
    }

    /** `handleTouchStart`: every touch starts a drag. */
    method HandleTouchStart(pageX: int)
      requires Valid() && totalItems > 0
      modifies this`initialPosition, this`dragStartPosition, this`isDragging, this`isDragged
      ensures Valid()
      ensures initialPosition == Abs(translateX) && dragStartPosition == pageX && isDragging && !isDragged
    {
      initialPosition := Abs(translateX);
      dragStartPosition := pageX;
      isDragging := true;
      isDragged := false;
    }

    /** `handleMouseMove` and `handleTouchMove` (they differ only in where the pointer's x
        comes from): while dragging, the list follows the pointer within its bounds. */
    method HandlePointerMove(pointerX: int, listWidth: int)
      requires Valid()
      modifies this`translateX, this`isDragged
      ensures Valid()
      ensures !old(isDragging) ==> unchanged(this)
      ensures old(isDragging) ==>
        isDragged && translateX == -DragOffset(initialPosition, dragStartPosition, pointerX, listWidth, Width(coords[0]))
    {
      if !isDragging {
        return;
      }
      var item := coords[0];
      var itemWidth := item.right - item.left;
      var deltaX := dragStartPosition - pointerX;
      var offset := Min(Max(initialPosition + deltaX, 0), listWidth - itemWidth);
      translateX := offset * -1;
      isDragged := true;
    }

    /** `handleMouseUpTouchEnd`: a release after the list moved navigates to the item the
        half-item rule picks; `containerWidth` is the container's measured width. */
    method HandleRelease(containerWidth: int)
      requires Valid()
      modifies this`currentPage, this`targetIndex, this`isDragging
      ensures Valid()
      ensures !old(isDragging) ==> unchanged(this)
      ensures old(isDragging) ==>
        !isDragging &&
        Position() == match ReleaseTarget(coords, initialPosition, -translateX, containerWidth)
                      case None => old(Position())
                      case Some(index) => IndexNavigation(snapType, itemsPerPage, totalPages, index)
    {
      if !isDragging {
        return;
      }
      var leftPosition := -translateX;
      var rightPosition := leftPosition + containerWidth;
      var direction := if leftPosition == initialPosition then 0
                       else if leftPosition > initialPosition then 1
                       else -1;
      if direction == 1 {
        var target := 0;
        var i := totalItems - 1;
        while i > -1
          invariant -1 <= i < totalItems
          invariant forall j :: i < j < totalItems ==> !EndsBy(coords[j], rightPosition)
          invariant target == 0
        {
          var item := coords[i];
          var itemWidth := item.right - item.left;
          if rightPosition > item.left && rightPosition >= item.right {
            assert LastEndingBy(coords, rightPosition) == i;
            var nextIndex := Min(i + 1, totalItems - 1);
            var nextItem := coords[nextIndex];
            // rightPosition < nextItem.left + itemWidth * ITEM_INTERSECT_THRESHOLD
            if 2 * rightPosition < 2 * nextItem.left + itemWidth {
              target := i;
            } else {
              target := nextIndex;
            }
            break;
          }
          i := i - 1;
        }
        assert target == ForwardReleaseTarget(coords, rightPosition);
        NavigateByIndex(target);
      } else if direction == -1 {
        var target := 0;
        var i := 0;
        while i < totalItems
          invariant 0 <= i <= totalItems
          invariant forall j :: 0 <= j < i ==> !StartsFrom(coords[j], leftPosition)
          invariant target == 0
        {
          var item := coords[i];
          var itemWidth := item.right - item.left;
          if leftPosition <= item.left {
            assert FirstStartingFrom(coords, leftPosition) == i;
            var prevIndex := Max(i - 1, 0);
            var prevItem := coords[prevIndex];
            // leftPosition > prevItem.left + itemWidth * ITEM_INTERSECT_THRESHOLD
            if 2 * leftPosition > 2 * prevItem.left + itemWidth {
              target := i;
            } else {
              target := prevIndex;
            }
            break;
          }
          i := i + 1;
        }
        assert target == BackwardReleaseTarget(coords, leftPosition);
        NavigateByIndex(target);
      }
      isDragging := false;
    }

    /** `updateArrows`, run when the list's transition ends. */
    method UpdateArrows()
      modifies this`showNextButton, this`showPrevButton
      ensures Arrows(showNextButton, showPrevButton) == ArrowsFor(autoplay, translateX, maxTranslateX)
    {
      UpdateArrowsWith(maxTranslateX);
    }

    /** The body of `updateArrows` for the `maxTranslateX` its closure holds. */
    method UpdateArrowsWith(closureMaxTranslateX: int)
      modifies this`showNextButton, this`showPrevButton
      ensures Arrows(showNextButton, showPrevButton) == ArrowsFor(autoplay, translateX, closureMaxTranslateX)
    {
      var offset := Abs(translateX);
      showNextButton := autoplay || offset < closureMaxTranslateX;
      showPrevButton := autoplay || offset > 0;
    }

    /** `handleResize`: rebuild the coordinate table for the container's new width and
        derive the page geometry from it. Its `updateArrows` is the one of the render that
        created it, so the arrows compare against the `maxTranslateX` from before. */
    method Resize(containerWidth: int)
      requires timer.Valid() && (isDragging ==> totalItems > 0)
      modifies this`containerClientWidth, this`finalItemWidth, this`coords, this`itemsPerPage,
               this`totalPages, this`maxTranslateX, this`showNextButton, this`showPrevButton
      ensures Valid()
      ensures containerClientWidth == containerWidth - CONTAINER_RIGHT_PADDING
      ensures finalItemWidth == FinalItemWidth(isFullWidth, itemWidth, containerClientWidth)
      ensures coords == Layout(totalItems, finalItemWidth)
      ensures itemsPerPage == if snapType == PageSnap then FitCount(coords, containerClientWidth) else 1
      ensures totalPages == PageCount(snapType, totalItems, FitCount(coords, containerClientWidth))
      ensures maxTranslateX == match MaxTranslateFor(coords, itemsPerPage, totalPages)
                               case Some(x) => x
                               case None => old(maxTranslateX)
      ensures Arrows(showNextButton, showPrevButton) == ArrowsFor(autoplay, translateX, old(maxTranslateX))
    {
      var staleMaxTranslateX := maxTranslateX;
      var newContainerClientWidth := containerWidth - CONTAINER_RIGHT_PADDING;
      containerClientWidth := newContainerClientWidth;
      var newFinalItemWidth := if isFullWidth then newContainerClientWidth
                               else Min(itemWidth, newContainerClientWidth);
      finalItemWidth := newFinalItemWidth;

      var coordinates, fit := MeasureItems(totalItems, newFinalItemWidth, newContainerClientWidth);
      // Math.ceil(totalItems / itemsPerPage) under page snap
      var pages := PageCount(snapType, totalItems, fit);
      var perPage := if snapType == PageSnap then fit else 1;
      coords := coordinates;
      itemsPerPage := perPage;
      totalPages := pages;

      var lastTargetItem := MaxTranslateFor(coordinates, perPage, pages);
      if lastTargetItem.Some? {
        maxTranslateX := lastTargetItem.value;
      }

      UpdateArrowsWith(staleMaxTranslateX);
    }

    /** The effect on `[isDragging, currentPage, targetIndex]`: once no drag is in progress,
        move the list to the targeted item. */
    method TargetEffect()
      modifies this`translateX
      ensures translateX == if totalItems == 0 || isDragging then old(translateX)
                            else TargetTranslate(coords, targetIndex, old(translateX))
    {
      if totalItems == 0 || isDragging {
        return;
      }
      if 0 <= targetIndex < |coords| {
        var item := coords[targetIndex];
        translateX := item.left * -1;
      }
    }

    /** The effect on `[itemsPerPage]`: go to the page that now holds the targeted item. */
    method ItemsPerPageEffect()
      requires Valid()
      modifies this`currentPage, this`targetIndex
      ensures Position() == IndexNavigation(snapType, itemsPerPage, totalPages, old(targetIndex))
    {
      NavigateByIndex(targetIndex);
    }

    /** The effect on `[totalPages, currentPage]`: a page past the last one becomes the
        last one. */
    method ClampPageEffect()
      modifies this`currentPage
      ensures currentPage == ClampPage(old(currentPage), totalPages)
    {
      if currentPage > totalPages - 1 {
        currentPage := totalPages - 1;
      }
    }

    /** The effect on `[isAutoplaying, itemsPerPage, totalPages, currentPage]`: the previous
        run's cleanup clears the countdown, and it restarts while autoplaying. */
    method AutoplayTimerEffect(now: int)
      requires Valid()
      modifies timer
      ensures Valid()
      ensures timer.totalRunTime == 0 && timer.nextId == old(timer.nextId) + (if isAutoplaying then 1 else 0)
      ensures isAutoplaying ==>
        timer.startTime == now && timer.timerId == old(timer.nextId) &&
        timer.pending == UseTimer.ClearTimeout(old(timer.pending), old(timer.timerId))
                         + [UseTimer.Timeout(timer.timerId, timer.countdown)]
      ensures !isAutoplaying ==>
        timer.timerId == UseTimer.DEFAULT_TIMER_ID && timer.startTime == 0 &&
        timer.pending == UseTimer.ClearTimeout(old(timer.pending), old(timer.timerId))
      ensures old(timer.Tracked()) ==> timer.Tracked() && |timer.pending| == (if isAutoplaying then 1 else 0)
    {
      timer.ClearTimer();
      if isAutoplaying {
        timer.StartTimer(now);
      }
    }

    /** The effect on `[isAutoplayPaused]`: pause the countdown, or resume it while
        autoplaying. */
    method PauseEffect(now: int)
      requires Valid()
      modifies timer
      ensures Valid()
      ensures isAutoplayPaused ==>
        timer.startTime == old(timer.startTime) && timer.nextId == old(timer.nextId) &&
        if old(timer.timerId) == UseTimer.DEFAULT_TIMER_ID then
          timer.timerId == old(timer.timerId) && timer.totalRunTime == old(timer.totalRunTime) &&
          timer.pending == old(timer.pending)
        else
          timer.timerId == UseTimer.DEFAULT_TIMER_ID &&
          timer.totalRunTime == old(timer.totalRunTime) + (now - old(timer.startTime)) &&
          timer.pending == UseTimer.ClearTimeout(old(timer.pending), old(timer.timerId))
      ensures isAutoplayPaused && old(timer.Tracked()) ==> timer.Tracked() && timer.pending == []
      ensures !isAutoplayPaused && isAutoplaying && old(timer.totalRunTime) >= timer.countdown ==>
        timer.timerId == UseTimer.DEFAULT_TIMER_ID && timer.startTime == 0 && timer.totalRunTime == 0 &&
        timer.pending == UseTimer.ClearTimeout(old(timer.pending), old(timer.timerId))
      ensures !isAutoplayPaused && isAutoplaying && old(timer.totalRunTime) < timer.countdown ==>
        timer.startTime == now && timer.timerId == old(timer.nextId) &&
        timer.totalRunTime == (if old(timer.timerId) == UseTimer.DEFAULT_TIMER_ID then old(timer.totalRunTime)
                               else old(timer.totalRunTime) + (now - old(timer.startTime))) &&
        timer.pending == (if old(timer.timerId) == UseTimer.DEFAULT_TIMER_ID then old(timer.pending)
                          else UseTimer.ClearTimeout(old(timer.pending), old(timer.timerId)))
                         + [UseTimer.Timeout(timer.timerId, timer.countdown - timer.totalRunTime)]
      ensures !isAutoplayPaused && isAutoplaying && old(timer.Tracked()) ==>
        timer.Tracked() && |timer.pending| == (if old(timer.totalRunTime) >= timer.countdown then 0 else 1)
      ensures !isAutoplayPaused && !isAutoplaying ==> unchanged(timer)
    {
      if isAutoplayPaused {
        timer.PauseTimer(now);
      } else if isAutoplaying {
        timer.ResumeTimer(now);
      }
    }

    /** The intersection observer's callback: with the `autoplay` prop set, autoplay runs
        exactly while the carousel is on screen. */
    method IntersectionChanged(isIntersecting: bool)
      modifies this`isAutoplaying
      ensures isAutoplaying == if autoplay then isIntersecting else old(isAutoplaying)
    {
      if autoplay {
        isAutoplaying := isIntersecting;
      }
    }
  }
}
