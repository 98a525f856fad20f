/** The scrollbar of the carousel (src/components/Carousel/CarouselScrollbar.tsx): a track
    that scrolls the list by keyboard and by click, and a thumb that can be dragged. Every
    handler clamps the scroll offset it writes into `[0, maxTranslateX]`.

    The track click, the thumb drag and the thumb's size and position scale pixel
    distances by ratios of widths in floating point; the model takes each scaled distance
    as an integer input and proves the clamps applied to it. */
module CarouselScrollbar {
  import opened Coordinates
  import opened Keys
  import opened CarouselEngine

  const MIN_THUMB_WIDTH: int := 34
  const SCROLL_DISTANCE: int := 100

  /** The scroll offset after `key` on the focused track: an arrow scrolls by
      SCROLL_DISTANCE towards that end without passing it, Home and End jump to the ends,
      any other key leaves the offset alone. */
  function TrackKeyOffset(key: Key, offset: int, maxTranslateX: int): (r: int)
    ensures 0 <= offset <= maxTranslateX ==> 0 <= r <= maxTranslateX
    ensures key == OtherKey ==> r == offset
    ensures key == ArrowLeft ==>
      0 <= r && (r == 0 || r == offset - SCROLL_DISTANCE) && (0 <= offset ==> r <= offset)
    ensures key == ArrowRight ==>
      r <= maxTranslateX && (r == maxTranslateX || r == offset + SCROLL_DISTANCE) &&
      (offset <= maxTranslateX ==> offset <= r)
  {
    match key
    case ArrowLeft => Max(offset - SCROLL_DISTANCE, 0)
    case ArrowRight => Min(offset + SCROLL_DISTANCE, maxTranslateX)
    case Home => 0
    case End => maxTranslateX
    case OtherKey => offset
  }

  /** The offset after pressing `key` on the track `presses` times. */
  function TrackKeyTimes(key: Key, offset: int, maxTranslateX: int, presses: nat): int
    decreases presses
  {
    if presses == 0 then offset
    else TrackKeyOffset(key, TrackKeyTimes(key, offset, maxTranslateX, presses - 1), maxTranslateX)
  }

  /** Holding ArrowRight scrolls by SCROLL_DISTANCE a press until the end of the list. */
  lemma {:induction false} ArrowRightScrollsToEnd(offset: int, maxTranslateX: int, presses: nat)
    requires 0 <= offset <= maxTranslateX
    ensures TrackKeyTimes(ArrowRight, offset, maxTranslateX, presses) ==
            Min(offset + SCROLL_DISTANCE * presses, maxTranslateX)
  {
    if presses > 0 {
      ArrowRightScrollsToEnd(offset, maxTranslateX, presses - 1);
    }
  }

  /** Holding ArrowLeft scrolls by SCROLL_DISTANCE a press back to the start. */
  lemma {:induction false} ArrowLeftScrollsToStart(offset: int, maxTranslateX: int, presses: nat)
    requires 0 <= offset
    ensures TrackKeyTimes(ArrowLeft, offset, maxTranslateX, presses) ==
            Max(offset - SCROLL_DISTANCE * presses, 0)
  {
    if presses > 0 {
      ArrowLeftScrollsToStart(offset, maxTranslateX, presses - 1);
    }
  }

  /** The offset a track click or a thumb drag writes: the scaled pointer position clamped
      to the scroll range. */
  function ScrollTo(scaled: int, maxTranslateX: int): (r: int)
    ensures 0 <= maxTranslateX ==> 0 <= r <= maxTranslateX
    ensures 0 <= scaled <= maxTranslateX ==> r == scaled
    ensures scaled < 0 <= maxTranslateX ==> r == 0
    ensures scaled > maxTranslateX ==> r == maxTranslateX
  {
    Min(Max(scaled, 0), maxTranslateX)
  }

  /** The thumb's width: its share of the track, but never below MIN_THUMB_WIDTH. */
  function ThumbWidth(proportionalWidth: int): (r: int)
    ensures r >= MIN_THUMB_WIDTH
    ensures proportionalWidth >= MIN_THUMB_WIDTH ==> r == proportionalWidth
  {
    Max(proportionalWidth, MIN_THUMB_WIDTH)
  }

  /** The thumb's left edge: its share of the track, kept so that the whole thumb stays on
      the track. */
  function ThumbLeft(proportionalLeft: int, trackWidth: int, thumbWidth: int): (r: int)
    ensures r + thumbWidth <= trackWidth
    ensures thumbWidth <= trackWidth ==> 0 <= r
    ensures 0 <= proportionalLeft <= trackWidth - thumbWidth ==> r == proportionalLeft
  {
    Min(Max(proportionalLeft, 0), trackWidth - thumbWidth)
  }

  /** The scrollbar's own state; it reads and writes the carousel's list offset. */
  class Scrollbar {
    const carousel: Carousel
    var thumbWidth: int
    var thumbLeft: int
    var initialPosition: int
    var scrollStartPosition: int
    var isDragging: bool

    constructor (carousel: Carousel)
      ensures this.carousel == carousel
      ensures thumbWidth == 0 && thumbLeft == 0 && initialPosition == 0 && scrollStartPosition == 0
      ensures !isDragging
    {
      this.carousel := carousel;
      thumbWidth := 0;
      thumbLeft := 0;
      initialPosition := 0;
      scrollStartPosition := 0;
      isDragging := false;
    }

    /** `handleTrackKeyDown`. */
    method HandleTrackKeyDown(key: Key)
      modifies carousel`translateX
      ensures -carousel.translateX == TrackKeyOffset(key, -old(carousel.translateX), carousel.maxTranslateX)
    {
      if key == OtherKey {
        return;
      }
      var translateX := carousel.translateX * -1;
      var newTranslateX := 0;
      match key {
        case ArrowLeft => newTranslateX := Max(translateX - SCROLL_DISTANCE, 0);
        case ArrowRight => newTranslateX := Min(translateX + SCROLL_DISTANCE, carousel.maxTranslateX);
        case Home => newTranslateX := 0;
        case End => newTranslateX := carousel.maxTranslateX;
        case OtherKey =>
      }
      carousel.translateX := newTranslateX * -1;
    }

    /** `handleTrackClick`; `scaledClick` is the click's distance along the track, less
        half a thumb, scaled from track pixels to list pixels and rounded down. */
    method HandleTrackClick(scaledClick: int)
      modifies carousel`translateX
      ensures -carousel.translateX == ScrollTo(scaledClick, carousel.maxTranslateX)
    {
      var translateX := Min(Max(scaledClick, 0), carousel.maxTranslateX);
      carousel.translateX := translateX * -1;
    }

    /** `handleThumbMouseDown`: only the main button starts a drag. */
    method HandleThumbMouseDown(button: int, clientX: int)
      modifies this`initialPosition, this`scrollStartPosition, this`isDragging
      ensures button != 0 ==> unchanged(this)
      ensures button == 0 ==>
        initialPosition == Abs(carousel.translateX) && scrollStartPosition == clientX && isDragging
    {
      if button != 0 {
        return;
      }
      initialPosition := Abs(carousel.translateX);
      scrollStartPosition := clientX;
      isDragging := true;
    }

    /** `handleThumbTouchStart`: any touch starts a drag. */
    method HandleThumbTouchStart(pageX: int)
      modifies this`initialPosition, this`scrollStartPosition, this`isDragging
      ensures initialPosition == Abs(carousel.translateX) && scrollStartPosition == pageX && isDragging
    {
      initialPosition := Abs(carousel.translateX);
      scrollStartPosition := pageX;
      isDragging := true;
    }

    /** `handleThumbMouseMove` / `handleThumbTouchMove`; `scaledDelta` is the pointer's
        movement since `scrollStartPosition` scaled by `containerClientWidth / thumbWidth`.
        Ignored unless a drag is in progress. */
    method HandleThumbMove(scaledDelta: int)
      modifies carousel`translateX
      ensures !isDragging ==> carousel.translateX == old(carousel.translateX)
      ensures isDragging ==> -carousel.translateX == ScrollTo(initialPosition + scaledDelta, carousel.maxTranslateX)
    {
      if !isDragging {
        return;
      }
      var translateX := Min(Max(initialPosition + scaledDelta, 0), carousel.maxTranslateX);
      carousel.translateX := translateX * -1;
    }

    /** `handleThumbMouseUpTouchEnd`. */
    method HandleThumbRelease()
      modifies this`isDragging
      ensures !isDragging
    {
      if !isDragging {
        return;
      }
      isDragging := false;
    }

    /** The effect on `[containerClientWidth, maxTranslateX]`; `proportionalWidth` is the
        track's width times the visible share of the list. */
    method ThumbWidthEffect(proportionalWidth: int)
      modifies this`thumbWidth
      ensures thumbWidth == ThumbWidth(proportionalWidth)
    {
      thumbWidth := Max(proportionalWidth, MIN_THUMB_WIDTH);
    }

    /** `handleThumbPosition`; `proportionalLeft` is the track's width times the scrolled
        share of the list. */
    method HandleThumbPosition(proportionalLeft: int, trackWidth: int)
      modifies this`thumbLeft
      ensures thumbLeft == ThumbLeft(proportionalLeft, trackWidth, thumbWidth)
    {
      thumbLeft := Min(Max(proportionalLeft, 0), trackWidth - thumbWidth);
    }
  }

  /** A thumb drag leaves the list inside its scroll range whatever the pointer does, and
      a drag that did not start does not move it. */
  method ThumbDragStaysInRange(carousel: Carousel, button: int, clientX: int, scaledDelta: int)
    returns (started: bool, offset: int)
    requires 0 <= carousel.maxTranslateX
    modifies carousel`translateX
    ensures started <==> button == 0
    ensures started ==> 0 <= offset <= carousel.maxTranslateX
    ensures !started ==> offset == -old(carousel.translateX)
  {
    var scrollbar := new Scrollbar(carousel);
    scrollbar.HandleThumbMouseDown(button, clientX);
    scrollbar.HandleThumbMove(scaledDelta);
    started := scrollbar.isDragging;
    offset := -carousel.translateX;
    scrollbar.HandleThumbRelease();
  }
}
