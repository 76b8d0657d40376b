/**
 * The countdown of the turn owner's browser (src/hooks/useGameTimer.ts).
 *
 * One run of the hook's effect is one `Step`: the one-second `setTimeout`
 * becomes "the step happens", and the callbacks become the event the step
 * reports (`Tick(v)` for `onTick(v)`, `Timeout` for `onTimeout()`).
 */
module GameTimer {

  datatype TimerEvent = Idle | Tick(value: int) | Timeout

  /** What one run of the effect does with the timer value `timer`. */
  function StepRule(timer: int, isActive: bool, shouldRun: bool): TimerEvent
  {
    if !isActive || !shouldRun then Idle
    else if timer > 0 then Tick(timer - 1)
    else Timeout
  }

  /** A step does nothing unless the timer is active and allowed to run; a tick
      lowers the timer by exactly one and never below zero; the timeout fires
      exactly when an active timer is at zero or below. */
  lemma StepRuleFacts(timer: int, isActive: bool, shouldRun: bool)
    ensures StepRule(timer, isActive, shouldRun) == Idle <==> !(isActive && shouldRun)
    ensures StepRule(timer, isActive, shouldRun).Tick? ==>
      StepRule(timer, isActive, shouldRun).value == timer - 1 >= 0
    ensures StepRule(timer, isActive, shouldRun) == Timeout <==> isActive && shouldRun && timer <= 0
  {
  }

  /** The `timer` state cell of one browser. */
  class Clock {
    var timer: int

    /** `useState(duration)` */
    constructor (duration: int)
      ensures timer == duration
    {
      timer := duration;
    }

    /** One run of the effect: `setTimer(timer - 1)` and `onTick` while above
        zero, `onTimeout` at zero, nothing while inactive. */
    method Step(isActive: bool, shouldRun: bool) returns (event: TimerEvent)
      modifies this
      ensures event == StepRule(old(timer), isActive, shouldRun)
      ensures timer == if event.Tick? then event.value else old(timer)
      ensures old(timer) >= 0 ==> timer >= 0
    {
      if !isActive || !shouldRun {
        return Idle;
      }
      if timer > 0 {
        var nextTime := timer - 1;
        timer := nextTime;
        event := Tick(nextTime);
      } else {
        event := Timeout;
      }
    }
  }

  /** A fresh timer stepped while continuously active: the values passed to
      `onTick` are duration-1, duration-2, ..., 0, and the step after the last
      tick reaches `onTimeout`, so the timeout comes after exactly `duration`
      decrements (at once when `duration <= 0`). */
  method CountdownToTimeout(duration: int) returns (ticks: seq<int>, last: TimerEvent)
    ensures |ticks| == if duration > 0 then duration else 0
    ensures forall i :: 0 <= i < |ticks| ==> ticks[i] == duration - 1 - i
    ensures last == Timeout
  {
    var clock := new Clock(duration);
    ticks := [];
    var event := clock.Step(true, true);
    while event.Tick?
      invariant fresh(clock)
      invariant event != Idle
      invariant event.Tick? ==> event.value == clock.timer == duration - 1 - |ticks| >= 0
      invariant event == Timeout ==> |ticks| == if duration > 0 then duration else 0
      invariant forall i :: 0 <= i < |ticks| ==> ticks[i] == duration - 1 - i
      decreases if event.Tick? then event.value + 1 else 0
    {
      ticks := ticks + [event.value];
      event := clock.Step(true, true);
    }
    last := event;
  }
}
