/**
 * The throttle ramp of the CALIBRATION mode, as values: the handler's throttle and the
 * time of its last step, and what one update does to them. The handler class in module
 * Flight is proved to follow `Climb`; the lemmas here say where repeated updates lead.
 */
module CalibrationLadder {
  import opened Configuration

  /** The calibration handler's throttle starts here and is never reset. */
  const InitialThrottle: int := -100

  /** The handler's own state: the throttle it commands and when it last raised it. */
  datatype Ladder = Ladder(throttle: int, lastAdjustment: int)

  /** The throttles the ramp can hold: -100 plus a whole number of steps. */
  predicate OnLadder(throttle: int) {
    throttle >= InitialThrottle && (throttle - InitialThrottle) % ThrottleStepForCalibration == 0
  }

  /** One update. Above the calibration height nothing moves (the handler hands over to
      LANDING instead); below it, the throttle rises by one step, stamped with the clock,
      once strictly more than one cadence has passed since the previous step. */
  function Climb(l: Ladder, above: bool, millis: int): (r: Ladder)
    ensures r == l || r == Ladder(l.throttle + ThrottleStepForCalibration, millis)
    ensures above || millis - l.lastAdjustment <= CalibrationTimeStep ==> r == l
    ensures OnLadder(l.throttle) ==> OnLadder(r.throttle)
  {
    if !above && millis - l.lastAdjustment > CalibrationTimeStep then
      Ladder(l.throttle + ThrottleStepForCalibration, millis)
    else
      l
  }

  /** Updates at the given clock readings, the height staying below the threshold. */
  function ClimbAll(l: Ladder, clock: seq<int>): Ladder
    decreases |clock|
  {
    if clock == [] then l else ClimbAll(Climb(l, false, clock[0]), clock[1..])
  }

  /** Each reading comes more than one cadence after the one before (the first after `last`). */
  predicate Spaced(last: int, clock: seq<int>)
    decreases |clock|
  {
    clock == [] || (clock[0] - last > CalibrationTimeStep && Spaced(clock[0], clock[1..]))
  }

  /** However the updates are timed, the throttle stays on the ladder and rises by at most
      one step per update. */
  lemma {:induction false} ClimbAllBounds(l: Ladder, clock: seq<int>)
    ensures l.throttle <= ClimbAll(l, clock).throttle <= l.throttle + ThrottleStepForCalibration * |clock|
    ensures OnLadder(l.throttle) ==> OnLadder(ClimbAll(l, clock).throttle)
    decreases |clock|
  {
    if clock != [] {
      ClimbAllBounds(Climb(l, false, clock[0]), clock[1..]);
    }
  }

  /** Updates spaced by more than the cadence raise the throttle by exactly one step each. */
  lemma {:induction false} SteadyClimb(l: Ladder, clock: seq<int>)
    requires Spaced(l.lastAdjustment, clock)
    ensures ClimbAll(l, clock).throttle == l.throttle + ThrottleStepForCalibration * |clock|
    ensures clock != [] ==> ClimbAll(l, clock).lastAdjustment == clock[|clock| - 1]
    decreases |clock|
  {
    if clock != [] {
      var next := Climb(l, false, clock[0]);
      SteadyClimb(next, clock[1..]);
      if |clock| > 1 {
        assert clock[1..][|clock[1..]| - 1] == clock[|clock| - 1];
      }
    }
  }

  /** A calibration run from a fresh handler: after n well-spaced steps the height
      threshold is crossed and the zero-throttle baseline becomes -100 + 5 (n - 1). */
  lemma CalibrationBaseline(clock: seq<int>)
    requires Spaced(0, clock)
    ensures ClimbAll(Ladder(InitialThrottle, 0), clock).throttle - ThrottleStepForCalibration
            == InitialThrottle + ThrottleStepForCalibration * (|clock| - 1)
  {
    SteadyClimb(Ladder(InitialThrottle, 0), clock);
  }
}
