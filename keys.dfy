/** The keys the widgets' keyboard handlers react to, and the focus step that the
    carousel's indicator list and its item list share. */
module Keys {
  import opened Coordinates

  /** `event.key`; every key the handlers do not list is `OtherKey`. */
  datatype Key = ArrowLeft | ArrowRight | Home | End | OtherKey

  /** The focus index after `key`, starting from `prev` in a list of `count` entries:
      one step left or right without leaving the list, Home the first entry, End the
      last, and any other key ignored. */
  function StepFocus(key: Key, prev: int, count: int): (r: int)
    ensures 0 <= prev < count ==> 0 <= r < count
    ensures key == OtherKey ==> r == prev
    ensures key == ArrowLeft && 0 < prev ==> r == prev - 1
    ensures key == ArrowRight && prev < count - 1 ==> r == prev + 1
  {
    match key
    case ArrowLeft => Max(prev - 1, 0)
    case ArrowRight => Min(prev + 1, count - 1)
    case Home => 0
    case End => count - 1
    case OtherKey => prev
  }

  /** The focus index after pressing `key` `presses` times. */
  function StepFocusTimes(key: Key, prev: int, count: int, presses: nat): int
    decreases presses
  {
    if presses == 0 then prev else StepFocus(key, StepFocusTimes(key, prev, count, presses - 1), count)
  }

  /** Holding ArrowRight walks to the last entry and stops there. */
  lemma {:induction false} ArrowRightStopsAtLast(prev: int, count: int, presses: nat)
    requires 0 <= prev < count
    ensures StepFocusTimes(ArrowRight, prev, count, presses) == Min(prev + presses, count - 1)
  {
    if presses > 0 {
      ArrowRightStopsAtLast(prev, count, presses - 1);
    }
  }

  /** Holding ArrowLeft walks to the first entry and stops there. */
  lemma {:induction false} ArrowLeftStopsAtFirst(prev: int, count: int, presses: nat)
    requires 0 <= prev < count
    ensures StepFocusTimes(ArrowLeft, prev, count, presses) == Max(prev - presses, 0)
  {
    if presses > 0 {
      ArrowLeftStopsAtFirst(prev, count, presses - 1);
    }
  }
}
