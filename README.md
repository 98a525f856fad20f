# Carousel and Tabs: a verified model

This project models the behaviour of the Carousel and Tabs components of a React
component library in Dafny, and proves what they promise. It covers:

- the carousel's navigation engine: page and item navigation, the previous/next step
  with and without autoplay, the autoplay tick, the geometry a resize derives from the
  container width, drag and release, and the effects that follow a change of state (the resize effects
  leave the list past its last page in one item-snap case, described below);
- the pagination indicators, which show at most five around the current page;
- the pausable countdown hook that drives autoplay;
- the small array and transform-string helpers;
- the list's keyboard, wheel and link handling;
- the scrollbar's keyboard, click and thumb handling;
- the Tabs keyboard focus, which skips disabled tabs, the scroll buttons' targets and the
  scroll-into-view decision.

One module per source file:

| module | file | source |
|---|---|---|
| `CarouselUtils` | utils.dfy | src/components/Carousel/utils.ts |
| `UseTimer` | timer.dfy | src/hooks/use-timer.ts |
| `CarouselEngine` | carousel.dfy | src/components/Carousel/index.tsx |
| `CarouselPagination` | pagination.dfy | src/components/Carousel/CarouselPagination.tsx |
| `CarouselBody` | body.dfy | src/components/Carousel/CarouselBody.tsx |
| `CarouselScrollbar` | scrollbar.dfy | src/components/Carousel/CarouselScrollbar.tsx |
| `Tabs` | tabs.dfy | src/components/Tabs/Tabs.tsx |
| `Coordinates` | coordinates.dfy | the `{left, right}` records and the two scans over them that index.tsx and Tabs.tsx share |
| `Keys` | keys.dfy | the keys the handlers react to, and the focus step shared by the indicator list and the item list |

## How the components are modelled

Each component is a `class`:

- its React state and the refs its handlers read are the class's fields;
- each handler is a method that changes only the fields it sets;
- each effect is a method the host calls once the state it depends on has changed.

A handler reads the state of the render that created it, so each method reads the fields
as they were on entry. The one place where this matters is the resize handler. Its
`updateArrows` closure still holds the `maxTranslateX` from before the resize, so
`CarouselEngine.Carousel.Resize` states the arrows against `old(maxTranslateX)`.

The list's `transform: translateX(..px)` string is stored as the integer it encodes
(`translateX`). `CarouselUtils.TranslateRoundTrip` justifies this: reading back a written
integer yields that integer.

Each handler's result is stated through a function on plain values, and the lemmas about
those functions carry the promises. Examples:

- `CarouselEngine.IndexPage`, the page that holds an item;
- `CarouselEngine.ResizeGeometry` with `ResizePages`;
- `CarouselPagination.HiddenIndexes` and `CarouselPagination.FadingIndexes`;
- `Tabs.IsPrevEnabled` and `Tabs.IsNextEnabled`.

The in-place loops of the source stay loops. Each is proved to compute what its function
says:

- the windowing effect's add/remove loops over `NumArray`;
- the resize `forEach`;
- the drag-release scans;
- the `navigateTabs` scans;
- the `disabledIndexes` push loop;
- the `tabIndex` loop over an array.

The host's `window.setTimeout`/`clearTimeout` are modelled by the list of pending
timeouts the host holds for the timer (`UseTimer.PausableTimer.pending`) and an id
counter. The clock is the parameter `now`.

Four behaviours of the code are worth knowing:

- The windowing effect always shows a full window of five indicators when there are more
  than five pages. At page 0 of 7 pages it shows indicators 0 to 4
  (src/components/Carousel/CarouselPagination.tsx:99-105, `CarouselPagination.FirstGroup`).
- In the middle branch of the windowing effect the code tests `leftmostIndicator !== 0`
  (src/components/Carousel/CarouselPagination.tsx:113-125). This test is always true there,
  because the current page is at least 3. So the left edge of a centred window always fades
  (`CarouselPagination.MiddleGroup`).
- Under item snap, a resize that lowers the page count but keeps one item per page
  changes only the current page. The items-per-page effect
  (src/components/Carousel/index.tsx:460-462) does not run, because `itemsPerPage` stays 1.
  The clamp (src/components/Carousel/index.tsx:464-469) then moves the current page to the
  new last page but leaves `targetIndex` where it was. The target effect then moves the list
  to that item, past `maxTranslateX`. `CarouselEngine.ItemSnapWideningOvershoots` gives an
  instance: with the tests' 20 items on page 17 of 18, widening to 15 pages moves the list
  to 5372 px, while the last page starts at 4424 px.
- The list's `handleFocus` receives the focused link's position among all links of the list
  (src/components/Carousel/CarouselBody.tsx:147-158), not the index of its item. With one
  link per item the two agree. With more links, the focus index can lie past the last item.
  ArrowRight, Home and End still reach an item from there, but ArrowLeft reads the edge of an
  item that does not exist, and that read throws (`CarouselBody.PastLastItem`).

## Model

| member | source | states |
|---|---|---|
| CarouselUtils.FindIndex | src/components/Carousel/utils.ts:24 | the first position holding the item; -1 exactly when the item is absent |
| CarouselUtils.WithItem | src/components/Carousel/utils.ts:17-21 | the item is present afterwards; an array already holding it is unchanged (so adding is idempotent); otherwise the item is appended at the end and the old elements are a prefix; no duplicates are introduced |
| CarouselUtils.WithoutItem | src/components/Carousel/utils.ts:23-28 | only the first occurrence is spliced out and the order of the rest is kept; an absent item leaves the array unchanged; the length drops by one exactly when the item was present; the multiset loses one copy; distinctness and ascending order are preserved |
| CarouselUtils.SpliceKeepsIncreasing | src/components/Carousel/utils.ts:26 | deleting one position keeps an ascending array ascending |
| CarouselUtils.SpliceKeepsDistinct | src/components/Carousel/utils.ts:26 | deleting one position keeps an array free of duplicates |
| CarouselUtils.NumArray.constructor | src/components/Carousel/CarouselPagination.tsx:79-80 | a new index list is empty |
| CarouselUtils.AddItemToArray | src/components/Carousel/utils.ts:17-21 | the array afterwards is `WithItem` of the array before |
| CarouselUtils.RemoveItemFromArray | src/components/Carousel/utils.ts:23-28 | the array afterwards is `WithoutItem` of the array before |
| CarouselUtils.GetStyleTranslateX | src/components/Carousel/utils.ts:1-9 | a transform without `translateX` reads as 0 |
| CarouselUtils.NatToStringDigits | src/components/Carousel/utils.ts:13 | the decimal rendering of a natural number is a non-empty digit string whose value is that number |
| CarouselUtils.KeepNumericOfTransform | src/components/Carousel/utils.ts:5 | the character filter keeps exactly the rendered number of a written transform |
| CarouselUtils.ToNumberOfIntToString | src/components/Carousel/utils.ts:5 | `Number` inverts the rendering of an integer, and every rendered character passes the filter |
| CarouselUtils.TranslateRoundTrip | src/components/Carousel/utils.ts:1-15 | reading the transform back after writing integer `v` yields `v` |
| UseTimer.ClearTimeout | src/hooks/use-timer.ts:25 | cancelling an id removes exactly the pending timeouts with that id |
| UseTimer.PausableTimer.constructor | src/hooks/use-timer.ts:12-16 | `timerId` -1, `startTime` 0, `totalRunTime` 0, nothing pending |
| UseTimer.PausableTimer.SetTimeout | src/hooks/use-timer.ts:31 | the host queues one timeout with the given delay under a fresh id |
| UseTimer.PausableTimer.ResetVariables | src/hooks/use-timer.ts:18-22 | `timerId` -1, `totalRunTime` 0, `startTime` 0 |
| UseTimer.PausableTimer.ClearTimer | src/hooks/use-timer.ts:24-27 | the recorded timeout is cancelled and all three fields are reset; a tracked timer has nothing pending afterwards |
| UseTimer.PausableTimer.StartTimer | src/hooks/use-timer.ts:29-32 | `startTime` becomes now; one callback is added to the pending ones, with delay `countdown`, under a fresh id that `timerId` records; with nothing pending before, exactly that one is pending |
| UseTimer.PausableTimer.PauseTimer | src/hooks/use-timer.ts:34-43 | with `timerId` -1 nothing changes; otherwise the timeout is cancelled, `timerId` becomes -1 and the elapsed time is added to `totalRunTime` |
| UseTimer.PausableTimer.ResumeTimer | src/hooks/use-timer.ts:45-56 | with `totalRunTime >= countdown` everything is cleared and nothing is pending; otherwise any running timeout is replaced by exactly one with delay `countdown - totalRunTime` (that delay is computed after the pause adds the running time, so it is positive when the timer was paused, `timerId` -1, and can be zero or negative for a running timer), and `startTime` becomes now |
| UseTimer.PausableTimer.FireNext | src/hooks/use-timer.test.ts:60 | the host runs the oldest pending timeout, if any, and drops it |
| UseTimer.PausableTimer.RunAll | src/hooks/use-timer.test.ts:60 | running all timers calls the callback once per pending timeout and leaves none |
| UseTimer.PauseThenResume | src/hooks/use-timer.ts:29-56 | a countdown paused after running `d` < `countdown` milliseconds and resumed later schedules exactly one callback with delay `countdown - d`; time spent paused is not counted |
| UseTimer.ResumeRepeatedlyRunsOnce | src/hooks/use-timer.test.ts:52-68 | start, pause, then three resumes: no call while paused, exactly one call afterwards |
| Coordinates.LastEndingBy | src/components/Carousel/index.tsx:337-353 | the highest index whose item ends by the position (`pos > left && pos >= right`); no later item does; -1 when none does |
| Coordinates.FirstStartingFrom | src/components/Carousel/index.tsx:190-199 | the lowest index whose item starts at or after the position; no earlier item does; -1 when none does |
| Coordinates.Clamp | src/components/Carousel/CarouselBody.tsx:116-119 | `min(max(x, lo), hi)` lies in `[lo, hi]` and is `x` when `x` already does |
| Keys.StepFocus | src/components/Carousel/CarouselPagination.tsx:39-63 | the focus stays in `[0, count-1]`; ArrowLeft/ArrowRight move one step inside the list; other keys leave it |
| Keys.ArrowRightStopsAtLast | src/components/Carousel/CarouselPagination.tsx:50-55 | `k` ArrowRight presses reach `min(prev + k, count-1)` |
| Keys.ArrowLeftStopsAtFirst | src/components/Carousel/CarouselPagination.tsx:44-49 | `k` ArrowLeft presses reach `max(prev - k, 0)` |
| CarouselEngine.IndexPage | src/components/Carousel/index.tsx:173-179 | under page snap, the page whose items `[itemsPerPage*p, itemsPerPage*(p+1))` contain the index; under item snap, the index itself capped at `totalPages-1` |
| CarouselEngine.PageTargetOnPage | src/components/Carousel/index.tsx:167-179 | navigating by index to the item `navigateByPage(p)` targets lands on page `p` again |
| CarouselEngine.IndicatorStep | src/components/Carousel/index.tsx:201-216 | stays in `[0, totalPages-1]`; a step inside the range moves by one; without autoplay it stops at the ends; with autoplay +1 from the last page gives 0 and -1 from page 0 gives the last page |
| CarouselEngine.ScrollbarStepTarget | src/components/Carousel/index.tsx:186-200 | `itemsPerPage` items after (before) the first item starting in the window, kept inside the list; item 0 when no item starts there |
| CarouselEngine.AutoplayPage | src/components/Carousel/index.tsx:152-160 | one tick goes from page `p` to `(p + 1) mod totalPages` |
| CarouselEngine.AutoplayCycles | src/components/Carousel/index.tsx:152-160 | after `t` ticks from page 0 the carousel is on page `t mod totalPages` |
| CarouselEngine.AutoplayTranslate | src/components/Carousel/Carousel.test.tsx:329-354 | on a laid-out list, after `t` ticks the offset is `(w+16)*itemsPerPage*(t mod totalPages)`, so the 7th of 7 ticks returns to 0 |
| CarouselEngine.PageStartOffset | src/components/Carousel/index.tsx:446-454 | the target effect moves the list to `-(w+16)*itemsPerPage*page` |
| CarouselEngine.FinalItemWidth | src/components/Carousel/index.tsx:398-405 | the container width for full-width items, otherwise the item width capped at the container width |
| CarouselEngine.Layout | src/components/Carousel/index.tsx:410-423 | item `i` has `left = (w+16)*i` and `right = left + w` |
| CarouselEngine.LastFitting | src/components/Carousel/index.tsx:415-417 | the last item with `right < containerClientWidth`; every later item ends at or past it |
| CarouselEngine.FitCount | src/components/Carousel/index.tsx:408-417 | items per page is at least 1 and at most the item count |
| CarouselEngine.LayoutRightMonotone | src/components/Carousel/index.tsx:413-414 | later items end further right |
| CarouselEngine.FirstItemsFit | src/components/Carousel/index.tsx:413-417 | when the first item fits, all of the first `itemsPerPage` items fit |
| CarouselEngine.PageCountIsCeiling | src/components/Carousel/index.tsx:424-425 | under page snap the page count is `ceil(n / itemsPerPage)` |
| CarouselEngine.ResizePages | src/components/Carousel/index.tsx:395-441 | after a resize, items per page is at least 1; page snap gives `ceil(n/itemsPerPage)` pages; item snap gives `n - fit + 1` pages with `itemsPerPage` 1; `maxTranslateX` is the left edge of item `itemsPerPage*(totalPages-1)`, which exists whenever there are items |
| CarouselEngine.LastPageStartExists | src/components/Carousel/index.tsx:434-438 | the first item of the last page is inside the list |
| CarouselEngine.MaxTranslateFound | src/components/Carousel/index.tsx:434-441 | a resize of a non-empty carousel always updates `maxTranslateX` to the left edge of the first item of the last page |
| CarouselEngine.ClampPage | src/components/Carousel/index.tsx:464-469 | a page past the last becomes the last; any other page stays |
| CarouselEngine.ArrowsFor | src/components/Carousel/index.tsx:384-389 | next shows iff autoplay or offset < `maxTranslateX`; previous shows iff autoplay or offset ≠ 0 |
| CarouselEngine.DragOffset | src/components/Carousel/index.tsx:280-284 | the drag offset stays in `[0, listWidth - firstItemWidth]` and is `initial + (start - pointer)` when that does |
| CarouselEngine.ForwardReleaseTarget | src/components/Carousel/index.tsx:333-354 | the last item ending by the right edge, or the next one exactly when at least half an item of it is visible; item 0 when none ends there |
| CarouselEngine.BackwardReleaseTarget | src/components/Carousel/index.tsx:355-376 | the first item starting after the left edge, or the one before it exactly when at least half an item of that one is visible |
| CarouselEngine.ReleaseTarget | src/components/Carousel/index.tsx:326-377 | no navigation exactly when the list has not moved; forward and backward moves use the two rules above |
| CarouselEngine.TestPages | src/components/Carousel/Carousel.test.tsx:27-32 | 20 items in the tests' container: 3 per page, 7 pages, last page starting at item 18 |
| CarouselEngine.TestPagesWide | src/components/Carousel/Carousel.test.tsx:308-319 | in a container twice as wide: 6 per page, 4 pages |
| CarouselEngine.TestResizeKeepsLastPage | src/components/Carousel/Carousel.test.tsx:282-326 | on the last of 7 pages, widening moves to the last of the 4 new pages |
| CarouselEngine.ItemSnapWideningOvershoots | src/components/Carousel/index.tsx:446-469 | under item snap, 20 items go from 18 pages to 15 with one item per page either way; the clamp moves page 17 to 14 while the target stays item 17, whose left edge 5372 lies past the new `maxTranslateX` 4424 |
| CarouselEngine.TestDrags | src/components/Carousel/Carousel.test.tsx:460-508 | 100 px drags snap back; 500 px drags move one page, forwards and back |
| CarouselEngine.MeasureItems | src/components/Carousel/index.tsx:407-423 | the resize loop builds `Layout` and counts `FitCount` |
| CarouselEngine.Carousel.constructor | src/components/Carousel/index.tsx:128-142 | the initial state: page 0, target 0, 1 per page, 1 page, no drag, autoplay off, nothing pending |
| CarouselEngine.Carousel.Mount | src/components/Carousel/index.tsx:456-458 | the first resize's geometry holds and `maxTranslateX` is the left edge of the last page's first item; autoplay follows the prop, with one pending tick exactly when it is on |
| CarouselEngine.Carousel.AutoplayPropEffect | src/components/Carousel/index.tsx:471-483 | `isAutoplaying` takes the prop, and a countdown is pending exactly when it is set |
| CarouselEngine.Carousel.NavigateByPage | src/components/Carousel/index.tsx:167-171 | page `p`, target `itemsPerPage*p` under page snap and `p` under item snap |
| CarouselEngine.Carousel.NavigateByIndex | src/components/Carousel/index.tsx:173-179 | navigates to `IndexPage` of the index |
| CarouselEngine.Carousel.NavigateByDirection | src/components/Carousel/index.tsx:181-218 | the scan and the step give `DirectionNavigation`: the scrollbar step target, or the indicator step |
| CarouselEngine.Carousel.AutoplayTick | src/components/Carousel/index.tsx:152-160 | page 0 from the last page; otherwise a forward step |
| CarouselEngine.Carousel.TimerFires | src/components/Carousel/index.tsx:162-165 | a pending countdown fires the autoplay tick once and is consumed; with none pending nothing changes |
| CarouselEngine.Carousel.HandleAutoplayButtonClick | src/components/Carousel/index.tsx:230-233 | toggles `isAutoplaying` |
| CarouselEngine.Carousel.HandleMouseEnter | src/components/Carousel/index.tsx:235-239 | pauses only while autoplaying |
| CarouselEngine.Carousel.HandleMouseLeave | src/components/Carousel/index.tsx:241-245 | unpauses only while autoplaying |
| CarouselEngine.Carousel.HandleMouseDown | src/components/Carousel/index.tsx:247-259 | only button 0 starts a drag, from the absolute offset; other buttons change nothing |
| CarouselEngine.Carousel.HandleTouchStart | src/components/Carousel/index.tsx:261-268 | every touch starts a drag from the absolute offset |
| CarouselEngine.Carousel.HandlePointerMove | src/components/Carousel/index.tsx:270-310 | ignored unless dragging; otherwise the offset is `DragOffset` and `isDragged` is set |
| CarouselEngine.Carousel.HandleRelease | src/components/Carousel/index.tsx:312-382 | ignored unless dragging; otherwise navigates to `ReleaseTarget` when the list moved, and ends the drag |
| CarouselEngine.Carousel.UpdateArrows | src/components/Carousel/index.tsx:384-389 | the arrows are `ArrowsFor` the current offset and `maxTranslateX` |
| CarouselEngine.Carousel.UpdateArrowsWith | src/components/Carousel/index.tsx:384-389 | the arrows for the `maxTranslateX` the closure holds |
| CarouselEngine.Carousel.Resize | src/components/Carousel/index.tsx:391-444 | the new geometry is `ResizeGeometry`'s; `maxTranslateX` keeps its old value only when there is no item; the arrows use the `maxTranslateX` from before the resize |
| CarouselEngine.Carousel.TargetEffect | src/components/Carousel/index.tsx:446-454 | unless there are no items or a drag is in progress, the list moves to minus the targeted item's left edge |
| CarouselEngine.Carousel.ItemsPerPageEffect | src/components/Carousel/index.tsx:460-462 | navigates to the page that now holds the targeted item |
| CarouselEngine.Carousel.ClampPageEffect | src/components/Carousel/index.tsx:464-469 | the current page becomes `ClampPage` of itself |
| CarouselEngine.Carousel.AutoplayTimerEffect | src/components/Carousel/index.tsx:475-483 | the cleanup clears the countdown (its timeout cancelled, `totalRunTime` and `startTime` 0); while autoplaying a fresh timeout with the full `countdown` is appended and `startTime` becomes now, otherwise `timerId` is -1 and nothing is added |
| CarouselEngine.Carousel.PauseEffect | src/components/Carousel/index.tsx:485-491 | pausing a running countdown cancels its timeout, sets `timerId` -1 and adds the time run since `startTime` to `totalRunTime` (a paused one is left as is); unpausing while autoplaying clears the countdown when `totalRunTime` has reached `countdown`, and otherwise schedules one timeout for the remaining `countdown - totalRunTime` with `startTime` now; unpausing without autoplay leaves the timer untouched |
| CarouselEngine.Carousel.IntersectionChanged | src/components/Carousel/index.tsx:541-558 | with the autoplay prop, autoplay runs exactly while intersecting; without it nothing changes |
| CarouselPagination.Range | src/components/Carousel/CarouselPagination.tsx:83 | the ascending integers `lo..hi-1` |
| CarouselPagination.WindowStart | src/components/Carousel/CarouselPagination.tsx:97-122 | the five-page window lies inside the pages and contains the current page |
| CarouselPagination.HiddenIndexes | src/components/Carousel/CarouselPagination.tsx:72-126 | empty for at most 5 pages; otherwise ascending, exactly `totalPages - 5` pages (every page outside the window), never the current page |
| CarouselPagination.FadingIndexes | src/components/Carousel/CarouselPagination.tsx:97-122 | ascending, at most two, every fading indicator shown |
| CarouselPagination.HideFarPages | src/components/Carousel/CarouselPagination.tsx:83-95 | the loop hides exactly the pages more than 2 before or after the current page, in ascending order |
| CarouselPagination.ShowAfter | src/components/Carousel/CarouselPagination.tsx:102-104 | removes the pages `cp+1..cp+count` from the hidden list and keeps the rest |
| CarouselPagination.ShowBefore | src/components/Carousel/CarouselPagination.tsx:109-111 | removes the pages `cp-count..cp-1` from the hidden list and keeps the rest |
| CarouselPagination.WidenedAfter | src/components/Carousel/CarouselPagination.tsx:99-104 | near the start, the far pages minus those shown again are the pages outside the window |
| CarouselPagination.WidenedBefore | src/components/Carousel/CarouselPagination.tsx:106-111 | near the end, likewise |
| CarouselPagination.Centred | src/components/Carousel/CarouselPagination.tsx:113-122 | in the middle the far pages are exactly the pages outside the window |
| CarouselPagination.WidenFirstGroup | src/components/Carousel/CarouselPagination.tsx:99-105 | the first-group branch completes the window, with page 4 fading |
| CarouselPagination.WidenLastGroup | src/components/Carousel/CarouselPagination.tsx:106-112 | the last-group branch completes the window, with page `totalPages-5` fading |
| CarouselPagination.FadeMiddleEdges | src/components/Carousel/CarouselPagination.tsx:113-122 | the middle branch sets the fading edges |
| CarouselPagination.IndicatorWindow | src/components/Carousel/CarouselPagination.tsx:72-126 | the effect computes exactly `HiddenIndexes` and `FadingIndexes` |
| CarouselPagination.FirstGroup | src/components/Carousel/CarouselPagination.tsx:99-105 | with the current page below 3, pages 0..4 are shown and only 4 fades |
| CarouselPagination.LastGroup | src/components/Carousel/CarouselPagination.tsx:106-112 | near the end, the last five pages are shown and only `totalPages-5` fades |
| CarouselPagination.MiddleGroup | src/components/Carousel/CarouselPagination.tsx:113-122 | in the middle, `cp-2..cp+2` are shown; `cp-2` fades, and `cp+2` fades unless it is the last page |
| CarouselPagination.Pagination.constructor | src/components/Carousel/CarouselPagination.tsx:25-28 | focus on the current page, nothing hidden or fading |
| CarouselPagination.Pagination.HandleFocus | src/components/Carousel/CarouselPagination.tsx:30-37 | focusing a hidden indicator navigates to its page; focusing a shown one does not navigate |
| CarouselPagination.Pagination.HandleKeyDown | src/components/Carousel/CarouselPagination.tsx:39-63 | the focus becomes `StepFocus` over the pages |
| CarouselPagination.Pagination.WindowEffect | src/components/Carousel/CarouselPagination.tsx:124-126 | commits `HiddenIndexes` and `FadingIndexes` of the current page |
| CarouselBody.ItemKeyDown | src/components/Carousel/CarouselBody.tsx:68-108 | focus becomes `StepFocus`; an arrow key fails (`NoItemAt`) exactly when the new focus is not an item, and never from a focus inside the list; ArrowLeft navigates iff the new item starts left of the window; ArrowRight iff it ends right of it; Home and End always navigate; other keys change nothing |
| CarouselBody.PastLastItem | src/components/Carousel/CarouselBody.tsx:79-106 | from a focus index past the last item, ArrowRight reaches the last item, Home and End navigate, and ArrowLeft fails exactly when its step is still past the last item |
| CarouselBody.VisibleItemDoesNotScroll | src/components/Carousel/CarouselBody.tsx:79-98 | an arrow onto an item wholly inside the window does not navigate |
| CarouselBody.WheelOffset | src/components/Carousel/CarouselBody.tsx:116-119 | the offset stays in `[0, maxTranslateX]` and is `offset + deltaX` when that does |
| CarouselBody.WheelUndo | src/components/Carousel/CarouselBody.tsx:116-119 | a wheel movement inside the range is undone by the opposite one |
| CarouselBody.Body.constructor | src/components/Carousel/CarouselBody.tsx:40-41 | focus index 0, focus not dirty |
| CarouselBody.Body.HandleItemClick | src/components/Carousel/CarouselBody.tsx:47-56 | the click is cancelled iff it ends a drag |
| CarouselBody.Body.HandleFocus | src/components/Carousel/CarouselBody.tsx:58-66 | the focus becomes dirty and the focus index becomes the link's position among the list's links, as given |
| CarouselBody.Body.HandleKeyDown | src/components/Carousel/CarouselBody.tsx:68-108 | for any non-negative focus index: the handler fails, changing nothing, exactly when `ItemKeyDown` gives `NoItemAt`; otherwise focus and navigation are `ItemKeyDown`'s, navigation by `navigateByIndex` |
| CarouselBody.Body.HandleWheel | src/components/Carousel/CarouselBody.tsx:110-124 | in scrollbar mode the offset becomes `WheelOffset`; otherwise it is unchanged |
| CarouselBody.Body.TabIndexEffect | src/components/Carousel/CarouselBody.tsx:135-144 | exactly the targeted item's link has tabIndex 0, every other link -1; items without a link are untouched |
| CarouselScrollbar.TrackKeyOffset | src/components/Carousel/CarouselScrollbar.tsx:35-62 | ArrowLeft `max(x-100, 0)`, ArrowRight `min(x+100, max)`, Home 0, End max, in range; other keys leave it |
| CarouselScrollbar.ArrowRightScrollsToEnd | src/components/Carousel/CarouselScrollbar.tsx:49-51 | `k` presses reach `min(x + 100k, max)` |
| CarouselScrollbar.ArrowLeftScrollsToStart | src/components/Carousel/CarouselScrollbar.tsx:46-48 | `k` presses reach `max(x - 100k, 0)` |
| CarouselScrollbar.ScrollTo | src/components/Carousel/CarouselScrollbar.tsx:77-83 | a click or drag offset lies in `[0, maxTranslateX]` and is the scaled position when that does |
| CarouselScrollbar.ThumbWidth | src/components/Carousel/CarouselScrollbar.tsx:199-205 | at least 34, and the proportional width when that is larger |
| CarouselScrollbar.ThumbLeft | src/components/Carousel/CarouselScrollbar.tsx:181-188 | the thumb ends inside the track; it starts at or after 0 when it fits |
| CarouselScrollbar.Scrollbar.constructor | src/components/Carousel/CarouselScrollbar.tsx:21-24 | thumb width 0, no drag |
| CarouselScrollbar.Scrollbar.HandleTrackKeyDown | src/components/Carousel/CarouselScrollbar.tsx:35-62 | the offset becomes `TrackKeyOffset` |
| CarouselScrollbar.Scrollbar.HandleTrackClick | src/components/Carousel/CarouselScrollbar.tsx:64-88 | the offset becomes `ScrollTo` of the scaled click |
| CarouselScrollbar.Scrollbar.HandleThumbMouseDown | src/components/Carousel/CarouselScrollbar.tsx:90-101 | only button 0 starts a drag, from the absolute offset |
| CarouselScrollbar.Scrollbar.HandleThumbTouchStart | src/components/Carousel/CarouselScrollbar.tsx:103-109 | every touch starts a drag |
| CarouselScrollbar.Scrollbar.HandleThumbMove | src/components/Carousel/CarouselScrollbar.tsx:111-161 | ignored unless dragging; otherwise the offset is `ScrollTo(initial + delta)` |
| CarouselScrollbar.Scrollbar.HandleThumbRelease | src/components/Carousel/CarouselScrollbar.tsx:163-172 | ends the drag |
| CarouselScrollbar.Scrollbar.ThumbWidthEffect | src/components/Carousel/CarouselScrollbar.tsx:196-206 | the thumb width becomes `ThumbWidth` |
| CarouselScrollbar.Scrollbar.HandleThumbPosition | src/components/Carousel/CarouselScrollbar.tsx:174-190 | the thumb's left edge becomes `ThumbLeft` |
| CarouselScrollbar.ThumbDragStaysInRange | src/components/Carousel/CarouselScrollbar.tsx:90-172 | a drag starts iff button 0; a started drag keeps the offset in range; one that did not start leaves it |
| Tabs.DisabledIndexesOf | src/components/Tabs/Tabs.tsx:38-43 | ascending, and holds exactly the indexes of disabled tabs |
| Tabs.DisabledIndexes | src/components/Tabs/Tabs.tsx:38-43 | the push loop builds `DisabledIndexesOf` |
| Tabs.FocusTargetsUnique | src/components/Tabs/Tabs.tsx:113-135 | each of the two focus rules names one tab |
| Tabs.PrevEnabled | src/components/Tabs/Tabs.tsx:114-123 | the nearest enabled tab before `prev`; `max(prev, 0)` when every tab before it is disabled |
| Tabs.NextEnabled | src/components/Tabs/Tabs.tsx:126-135 | the nearest enabled tab after `prev`; `min(prev, length-1)` when every tab after it is disabled |
| Tabs.FirstSelected | src/components/Tabs/Tabs.tsx:28-33 | the first selected tab, or -1 when none is |
| Tabs.ScrollTabIntoView | src/components/Tabs/Tabs.tsx:153-199 | no scroll when `clientWidth = scrollWidth`; a scroll goes to `left - 44` or to `right - clientWidth + 44` |
| Tabs.VisibleTabStays | src/components/Tabs/Tabs.tsx:166-196 | a tab inside the view with 44 px to spare on both sides is not scrolled |
| Tabs.RightSideWins | src/components/Tabs/Tabs.tsx:180-187 | a tab reaching past the right edge (less 44 px) scrolls to `left - 44`, whatever the left side says |
| Tabs.LeftSideScrolls | src/components/Tabs/Tabs.tsx:188-195 | a tab reaching past the left edge only scrolls to `right - clientWidth + 44` |
| Tabs.ScrollSettles | src/components/Tabs/Tabs.tsx:180-196 | after the scroll, a tab that fits with both buttons needs no further scroll |
| Tabs.TabList.constructor | src/components/Tabs/Tabs.tsx:24-35 | the focus starts on the first selected tab |
| Tabs.TabList.UpdateArrows | src/components/Tabs/Tabs.tsx:146-151 | next shows iff the strip can scroll further right; previous iff it has scrolled |
| Tabs.TabList.HandleTabFocus | src/components/Tabs/Tabs.tsx:103-106 | the focused tab becomes the focus index |
| Tabs.TabList.HandleKeyDown | src/components/Tabs/Tabs.tsx:108-144 | arrows go to the nearest enabled tab (`IsPrevEnabled`/`IsNextEnabled`); Home 0 and End `length-1` even when disabled; other keys nothing |
| Tabs.TabList.HandleResize | src/components/Tabs/Tabs.tsx:214-228 | tab `i` gets `left = offsetLeft` and `right = offsetLeft + clientWidth` |
| Tabs.TabList.NavigateTabs | src/components/Tabs/Tabs.tsx:45-87 | forward: the tab after the last one ending by `clientWidth + scrollLeft - prev` (capped at the last) is brought to the previous button; backward: the tab before the first one starting at `scrollLeft + prev` (at least 0) is brought to the next button; none found, no scroll |

## Left out

- Rendering, class names, CSS transitions and ARIA attributes (header, footer, buttons, icons, `aria-valuenow` rounding): presentational, nothing to prove.
- Listener registration and teardown, `ResizeObserver`/`IntersectionObserver` subscription and the 100 ms `debounce`: host lifecycle. Resize, intersection, pointer, key and timer events are method calls.
- React's scheduling of effects: each effect is a method that the host calls after the state it depends on has changed. The model does not fix the order in which React runs them within one commit.
- Real time: `new Date().getTime()` is the parameter `now`.
- `window.setTimeout`/`clearTimeout`: modelled by the host's list of pending timeouts; actual delays elapsing are not modelled.
- Floating point: the scrollbar's click ratio, its drag scale `containerClientWidth / thumbWidth`, and its thumb width and left proportions are taken as integer inputs (`scaledClick`, `scaledDelta`, `proportionalWidth`, `proportionalLeft`); only the clamps applied to them are proved. A fractional drag offset would be written as a fractional `translateX`, which the model does not represent.
- CarouselEngine.Carousel.HandleRelease: the half-item threshold `ITEM_INTERSECT_THRESHOLD = 0.5` is written as an exact comparison on doubled integers.
- Tabs.TabList.UpdateArrows: takes the strip's scroll offset already rounded up; the `Math.ceil` of a fractional `scrollLeft` is not modelled.
- CarouselUtils.GetStyleTranslateX: `Number(..)` is evaluated only for integer numerals (and the empty string); any other string, including one with a decimal point, is `Unparsed`.
- CarouselBody.Body.HandleKeyDown: the `TypeError` that reading the edge of a missing item throws inside the focus updater is modelled as `failed` with no state change; how React then reports or recovers from the error is not modelled.
- DOM focus: the pagination focus effect (src/components/Carousel/CarouselPagination.tsx:65-70) and the list focus effect (src/components/Carousel/CarouselBody.tsx:126-133) only call `element.focus()`; the model keeps `focusDirty` and `focusIndex`.
- Smooth scrolling: `scrollTo({behavior: 'smooth'})` is modelled by the target offset it is given (`Tabs.TabList.NavigateTabs`, `Tabs.ScrollTabIntoView`).
- Tabs.TabList.NavigateTabs: the tab's `offsetLeft`/`clientWidth` at click time are taken from the coordinates recorded at the last resize. The source queries the element by the recorded `id`, which is not modelled.
- The Tabs scroll-into-view effect and the selected-tab state (src/components/Tabs/Tabs.tsx:201-206) are not modelled beyond the decision `Tabs.ScrollTabIntoView` makes.
- The previous/next button and autoplay button callbacks (`onPrevClick`, `onNextClick`, `onAutoplayButtonClick`): foreign code.
- src/components/Tabs/constants.ts is not part of this model: `PREV_BUTTON_WIDTH` is the constant field `Tabs.TabList.prevButtonWidth`.
- Integer width: JavaScript numbers are doubles; all pixel values are unbounded integers, and no overflow or rounding is modelled.
