/** The teleprompter: a speed clamped to [0.5, 10] and a 50 ms interval that
    adds the speed to the prompter's `scrollTop`. Every variant carries the same
    `startScriptScrolling` / `stopScriptScrolling` / `adjustScrollSpeed` code. */
module Teleprompter {

  const MinSpeed: real := 0.5
  const MaxSpeed: real := 10.0
  const InitialSpeed: real := 2.0
  /** The change the arrow buttons pass to `adjustScrollSpeed`. */
  const ButtonStep: real := 0.5

  /** The updater `prev => Math.max(0.5, Math.min(10, prev + change))`. */
  function ClampSpeed(prev: real, change: real): (speed: real)
    ensures MinSpeed <= speed <= MaxSpeed
    ensures MinSpeed <= prev + change <= MaxSpeed ==> speed == prev + change
    ensures prev + change < MinSpeed ==> speed == MinSpeed
    ensures MaxSpeed < prev + change ==> speed == MaxSpeed
  {
    var raised := prev + change;
    var capped := if raised < MaxSpeed then raised else MaxSpeed;
    if MinSpeed < capped then capped else MinSpeed
  }

  /** Counted in half units the speed is a whole number from 1 to 20; each arrow
      press moves it one unit, saturating at both ends. */
  lemma ButtonsStayOnHalfGrid(units: int)
    requires 1 <= units <= 20
    ensures ClampSpeed(units as real * ButtonStep, ButtonStep)
         == (if units < 20 then units + 1 else 20) as real * ButtonStep
    ensures ClampSpeed(units as real * ButtonStep, -ButtonStep)
         == (if units > 1 then units - 1 else 1) as real * ButtonStep
  {
  }

  /** The `scrollSpeed` state, the `scrollInterval` ref, and the intervals the
      browser is running on the prompter's behalf. */
  class Scroller {
    var speed: real
    var intervalSet: bool
    var liveIntervals: nat
    /** The speed the running interval's callback closed over when it was created. */
    var intervalSpeed: real
    var scrollTop: real

    /** The speed stays in range, and the ref accounts for every running interval:
        the prompter never scrolls twice per tick. */
    ghost predicate Valid()
      reads this
    {
      MinSpeed <= speed <= MaxSpeed && liveIntervals == (if intervalSet then 1 else 0)
    }

    constructor ()
      ensures Valid() && speed == InitialSpeed && !intervalSet && scrollTop == 0.0
    {
      speed := InitialSpeed;
      intervalSet := false;
      liveIntervals := 0;
      intervalSpeed := InitialSpeed;
      scrollTop := 0.0;
    }

    /** `adjustScrollSpeed(change)`. */
    method Adjust(change: real)
      requires Valid()
      modifies this
      ensures Valid() && speed == ClampSpeed(old(speed), change)
      ensures intervalSet == old(intervalSet) && intervalSpeed == old(intervalSpeed)
      ensures scrollTop == old(scrollTop)
    {
      speed := ClampSpeed(speed, change);
    }

    /** `startScriptScrolling`: clear the interval the ref holds, then start one
        that scrolls by the current speed. */
    method Start()
      requires Valid()
      modifies this
      ensures Valid() && intervalSet && liveIntervals == 1 && intervalSpeed == speed
      ensures speed == old(speed) && scrollTop == old(scrollTop)
    {
      if intervalSet {
        liveIntervals := liveIntervals - 1;
      }
      liveIntervals := liveIntervals + 1;
      intervalSet := true;
      intervalSpeed := speed;
    }

    /** `stopScriptScrolling`: clear the interval, if any, and the ref. */
    method Stop()
      requires Valid()
      modifies this
      ensures Valid() && !intervalSet && liveIntervals == 0
      ensures speed == old(speed) && scrollTop == old(scrollTop) && intervalSpeed == old(intervalSpeed)
    {
      if intervalSet {
        liveIntervals := liveIntervals - 1;
        intervalSet := false;
      }
    }

    /** One firing of the 50 ms interval: scroll only if the prompter element exists. */
    method Tick(prompterMounted: bool)
      requires Valid() && intervalSet
      modifies this
      ensures Valid()
      ensures scrollTop == old(scrollTop) + (if prompterMounted then intervalSpeed else 0.0)
      ensures speed == old(speed) && intervalSet && intervalSpeed == old(intervalSpeed)
    {
      if prompterMounted {
        scrollTop := scrollTop + intervalSpeed;
      }
    }
  }
}
