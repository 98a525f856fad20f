/** The `{left, right}` coordinate records that both the carousel
    (`CarouselItemCoordinates`) and the tabs (`TabCoordinates`) keep per item, and the two
    scans both components run over them to find where the visible window starts or ends. */
module Coordinates {

  datatype Option<T> = None | Some(value: T)

  /** Pixel boundaries of one item, measured from the scroller's origin. The `id` the
      source stores beside them is only used to find the DOM node and is not modelled. */
  datatype Coord = Coord(left: int, right: int)

  /** The item lies left of `position`: it starts before it and ends at or before it. */
  predicate EndsBy(c: Coord, position: int) {
    position > c.left && position >= c.right
  }

  /** The item starts at or after `position`. */
  predicate StartsFrom(c: Coord, position: int) {
    position <= c.left
  }

  /** The result of a loop `for (i = n - 1; i > -1; i--) if (EndsBy(..)) break`: the
      highest index whose item ends by `position`, or -1 when there is none. */
  function LastEndingBy(coords: seq<Coord>, position: int): (r: int)
    ensures -1 <= r < |coords|
    ensures r >= 0 ==> EndsBy(coords[r], position)
    ensures forall j :: r < j < |coords| ==> !EndsBy(coords[j], position)
  {
    if coords == [] then -1
    else if EndsBy(coords[|coords| - 1], position) then |coords| - 1
    else LastEndingBy(coords[..|coords| - 1], position)
  }

  /** The result of a loop `for (i = 0; i < n; i++) if (StartsFrom(..)) break`: the
      lowest index whose item starts at or after `position`, or -1 when there is none. */
  function FirstStartingFrom(coords: seq<Coord>, position: int): (r: int)
    ensures -1 <= r < |coords|
    ensures r >= 0 ==> StartsFrom(coords[r], position)
    ensures forall j :: 0 <= j < |coords| && (r == -1 || j < r) ==> !StartsFrom(coords[j], position)
  {
    if coords == [] then -1
    else if StartsFrom(coords[0], position) then 0
    else
      var k := FirstStartingFrom(coords[1..], position);
      if k == -1 then -1 else k + 1
  }

  function Min(a: int, b: int): int {
    if a <= b then a else b
  }

  function Max(a: int, b: int): int {
    if a >= b then a else b
  }

  /** `Math.min(Math.max(x, lo), hi)`, the clamp every offset handler applies. */
  function Clamp(x: int, lo: int, hi: int): (r: int)
    ensures r <= hi
    ensures lo <= hi ==> lo <= r
    ensures lo <= x <= hi ==> r == x
  {
    Min(Max(x, lo), hi)
  }
}
