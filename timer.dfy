/** The pausable countdown of src/hooks/use-timer.ts that drives the carousel's autoplay.
    The host's `window.setTimeout` / `window.clearTimeout` are modelled by the list of
    timeouts the host holds for this timer (`pending`) and an id counter; the clock
    (`new Date().getTime()`) is the parameter `now`. */
module UseTimer {

  const DEFAULT_TIMER_ID: int := -1

  /** A timeout the host holds: `window.setTimeout(fn, delay)` returned `id`. */
  datatype Timeout = Timeout(id: int, delay: int)

  /** `window.clearTimeout(id)`: the pending timeouts other than the one with that id. */
  function ClearTimeout(pending: seq<Timeout>, id: int): (r: seq<Timeout>)
    ensures forall t :: t in r <==> t in pending && t.id != id
    ensures |r| <= |pending|
    ensures (forall t :: t in pending ==> t.id == id) ==> r == []
  {
    if pending == [] then []
    else (if pending[0].id == id then [] else [pending[0]]) + ClearTimeout(pending[1..], id)
  }

  class PausableTimer {
    /** The `countdown` the hook was created with, in milliseconds. */
    const countdown: int
    var timerId: int
    var startTime: int
    var totalRunTime: int
    /** The host's pending timeouts for this timer's callback, oldest first. */
    var pending: seq<Timeout>
    /** The id the host hands out next; host timeout ids are positive and never reused. */
    var nextId: int

    /** Host bookkeeping: ids already handed out are below `nextId`. */
    ghost predicate Valid()
      reads this
    {
      0 < nextId && timerId < nextId &&
      forall t :: t in pending ==> 0 < t.id < nextId
    }

    /** Every pending callback is the one `timerId` names: the timer has no stray timeout
        it could no longer cancel, so at most one callback is pending. */
    ghost predicate Tracked()
      reads this
    {
      forall t :: t in pending ==> t.id == timerId && timerId != DEFAULT_TIMER_ID
    }

    constructor (countdown: int)
      ensures this.countdown == countdown
      ensures timerId == DEFAULT_TIMER_ID && startTime == 0 && totalRunTime == 0
      ensures pending == [] && Valid() && Tracked()
    {
      this.countdown := countdown;
      timerId := DEFAULT_TIMER_ID;
      startTime := 0;
      totalRunTime := 0;
      pending := [];
      nextId := 1;
    }

    /** `window.setTimeout(fn, delay)`: the host queues a timeout and returns a fresh id. */
    method SetTimeout(delay: int) returns (id: int)
      requires Valid()
      modifies this`pending, this`nextId
      ensures Valid()
      ensures id == old(nextId) && nextId == old(nextId) + 1
      ensures pending == old(pending) + [Timeout(id, delay)]
    {
      id := nextId;
      pending := pending + [Timeout(id, delay)];
      nextId := nextId + 1;
    }

    /** `_resetVariables`. */
    method ResetVariables()
      modifies this`timerId, this`totalRunTime, this`startTime
      ensures timerId == DEFAULT_TIMER_ID && totalRunTime == 0 && startTime == 0
    {
      timerId := DEFAULT_TIMER_ID;
      totalRunTime := 0;
      startTime := 0;
    }

    /** `clearTimer`: cancel the timeout `timerId` names and reset all accounting. */
    method ClearTimer()
      requires Valid()
      modifies this
      ensures Valid()
      ensures timerId == DEFAULT_TIMER_ID && startTime == 0 && totalRunTime == 0
      ensures pending == ClearTimeout(old(pending), old(timerId)) && nextId == old(nextId)
      ensures old(Tracked()) ==> Tracked() && pending == []
    {
      pending := ClearTimeout(pending, timerId);
      ResetVariables();
    }

    /** `startTimer`: remember when the countdown started and schedule the callback
        after the full `countdown`. */
    method StartTimer(now: int)
      requires Valid()
      modifies this
      ensures Valid()
      ensures startTime == now && totalRunTime == old(totalRunTime)
      ensures timerId == old(nextId) && nextId == old(nextId) + 1
      ensures pending == old(pending) + [Timeout(timerId, countdown)]
      ensures old(pending) == [] ==> Tracked() && |pending| == 1
    {
      startTime := now;
      timerId := SetTimeout(countdown);
    }

    /** `pauseTimer`: nothing to do when no timeout is recorded; otherwise cancel it and
        add the time it has run to `totalRunTime`. */
    method PauseTimer(now: int)
      requires Valid()
      modifies this
      ensures Valid() && nextId == old(nextId) && startTime == old(startTime)
      ensures old(timerId) == DEFAULT_TIMER_ID ==>
        timerId == old(timerId) && totalRunTime == old(totalRunTime) && pending == old(pending)
      ensures old(timerId) != DEFAULT_TIMER_ID ==>
        timerId == DEFAULT_TIMER_ID &&
        totalRunTime == old(totalRunTime) + (now - old(startTime)) &&
        pending == ClearTimeout(old(pending), old(timerId))
      ensures old(Tracked()) ==> Tracked() && pending == []
    {
      if timerId == DEFAULT_TIMER_ID {
        assert pending != [] ==> pending[0] in pending;
        return;
      }
      pending := ClearTimeout(pending, timerId);
      timerId := DEFAULT_TIMER_ID;
      totalRunTime := totalRunTime + (now - startTime);
    }

    /** `resumeTimer`: when the time already run reaches `countdown`, clear; otherwise
        pause (so any running timeout is replaced, not doubled) and schedule the remaining
        time. The test on `totalRunTime` comes before the pause adds the running time, so
        the remaining delay is positive only when the timer was paused (`timerId` -1); for
        a running timer it can be zero or negative. */
    method ResumeTimer(now: int)
      requires Valid()
      modifies this
      ensures Valid()
      ensures old(totalRunTime) >= countdown ==>
        timerId == DEFAULT_TIMER_ID && startTime == 0 && totalRunTime == 0 &&
        pending == ClearTimeout(old(pending), old(timerId))
      ensures old(totalRunTime) < countdown ==>
        startTime == now && timerId == old(nextId) &&
        totalRunTime == (if old(timerId) == DEFAULT_TIMER_ID then old(totalRunTime)
                         else old(totalRunTime) + (now - old(startTime))) &&
        pending == (if old(timerId) == DEFAULT_TIMER_ID then old(pending)
                    else ClearTimeout(old(pending), old(timerId)))
                   + [Timeout(timerId, countdown - totalRunTime)]
      ensures old(Tracked()) ==>
        Tracked() && |pending| == (if old(totalRunTime) >= countdown then 0 else 1)
      ensures old(timerId) == DEFAULT_TIMER_ID && old(totalRunTime) < countdown ==>
        pending[|pending| - 1].delay > 0
    {
      if totalRunTime >= countdown {
        ClearTimer();
      } else {
        PauseTimer(now);
        timerId := SetTimeout(countdown - totalRunTime);
        startTime := now;
      }
    }

    /** The host runs the oldest pending timeout; `fired` says whether the callback ran.
        The hook itself does not reset `timerId` when its callback runs. */
    method FireNext() returns (fired: bool)
      requires Valid()
      modifies this`pending
      ensures Valid()
      ensures fired <==> old(pending) != []
      ensures pending == if fired then old(pending)[1..] else old(pending)
      ensures old(Tracked()) ==> Tracked()
    {
      fired := pending != [];
      if fired {
        pending := pending[1..];
      }
    }

    /** Run every pending timeout (`jest.runAllTimers()`); `calls` is how often the
        callback ran. */
    method RunAll() returns (calls: nat)
      requires Valid()
      modifies this`pending
      ensures Valid() && pending == [] && calls == |old(pending)|
      ensures old(Tracked()) ==> Tracked()
    {
      calls := 0;
      while pending != []
        invariant Valid()
        invariant calls + |pending| == |old(pending)|
        invariant old(Tracked()) ==> Tracked()
        decreases |pending|
      {
        var fired := FireNext();
        calls := calls + 1;
      }
    }
  }

  /** A countdown paused after running `pauseAt - start` milliseconds and resumed later
      schedules only the remaining time: the time run before the pause is kept, and the
      time spent paused is not counted. */
  method PauseThenResume(countdown: int, start: int, pauseAt: int, resumeAt: int)
    returns (delay: int, pendingCount: nat)
    requires 0 <= pauseAt - start < countdown
    ensures delay == countdown - (pauseAt - start) && 0 < delay <= countdown
    ensures pendingCount == 1
  {
    var timer := new PausableTimer(countdown);
    timer.StartTimer(start);
    timer.PauseTimer(pauseAt);
    timer.ResumeTimer(resumeAt);
    delay := timer.pending[|timer.pending| - 1].delay;
    pendingCount := |timer.pending|;
  }

  /** Pausing and then resuming three times in a row still runs the callback exactly once
      (the clock is frozen, as under the host's fake timers). */
  method ResumeRepeatedlyRunsOnce(countdown: int, now: int) returns (whilePaused: nat, afterResumes: nat)
    requires countdown > 0
    ensures whilePaused == 0 && afterResumes == 1
  {
    var timer := new PausableTimer(countdown);
    timer.StartTimer(now);
    timer.PauseTimer(now);
    whilePaused := timer.RunAll();
    timer.ResumeTimer(now);
    timer.ResumeTimer(now);
    timer.ResumeTimer(now);
    afterResumes := timer.RunAll();
  }
}
