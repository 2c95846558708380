/**
 * The flight computer and the two mode handlers whose code is part of this model
 * (CALIBRATION and WAYPOINT_HOLD).
 *
 * The computer's current handler is represented by its mode; requests to change mode
 * follow the rule `Permits` of module FlightStates (an assumption about
 * FlightState.transition, which is not part of this model). Clock readings, the
 * remote-control mask and the guards of every handler but CALIBRATION's (nine) are
 * parameters.
 */
module Flight {
  import opened JavaLang
  import opened FlightStates
  import opened Configuration
  import opened ControlMap
  import opened CalibrationLadder

  /** The craft's motor interface, reduced to the last throttle it was sent. */
  class QuadCopter {
    var throttle: int

    constructor(throttle: int)
      ensures this.throttle == throttle
    {
      this.throttle := throttle;
    }

    method Throttle(speed: int)
      modifies this`throttle
      ensures throttle == speed
    {
      throttle := speed;
    }
  }

  /** A PID controller (AutoControl), reduced to the goal it is asked to reach. */
  class Controller {
    var goal: real

    constructor(goal: real)
      ensures this.goal == goal
    {
      this.goal := goal;
    }

    method SetGoal(goal: real)
      modifies this`goal
      ensures this.goal == goal
    {
      this.goal := goal;
    }
  }

  // ---------------------------------------------------------------------------
  // The stick range of the motion commands

  /** The stick range the constructor reads, as written: both ends from getMinSpeed(). */
  function SpeedRangeAsWritten(): (real, real) {
    (MinSpeed, MinSpeed)
  }

  /** The stick range the motion commands are meant to map: [MIN_SPEED, MAX_SPEED]. */
  function SpeedRange(): (r: (real, real))
    ensures r.0 < r.1
  {
    (MinSpeed, MaxSpeed)
  }

  /** As written, forward and sideways divide by a zero-width range: whatever the
      stick position, the tilt goal is not a finite number. */
  lemma ForwardAsWrittenNeverFinite(speed: int)
    ensures FloatMap(speed as real, SpeedRangeAsWritten().0, SpeedRangeAsWritten().1,
                     MinTiltAngle, MaxTiltAngle) == NonFinite
  {
  }

  /** With the intended range, full stick either way commands the full tilt either way,
      and every stick position in between commands a tilt inside the envelope,
      in the same order. */
  lemma ForwardSpansTiltRange(a: int, b: int)
    requires MinSpeed <= a as real <= b as real <= MaxSpeed
    ensures Map(MinSpeed, SpeedRange().0, SpeedRange().1, MinTiltAngle, MaxTiltAngle) == MinTiltAngle
    ensures Map(MaxSpeed, SpeedRange().0, SpeedRange().1, MinTiltAngle, MaxTiltAngle) == MaxTiltAngle
    ensures var ta, tb := Map(a as real, MinSpeed, MaxSpeed, MinTiltAngle, MaxTiltAngle),
                          Map(b as real, MinSpeed, MaxSpeed, MinTiltAngle, MaxTiltAngle);
            MinTiltAngle <= ta <= tb <= MaxTiltAngle
  {
    MapEndpoints(MinSpeed, MaxSpeed, MinTiltAngle, MaxTiltAngle);
    MapMonotone(a as real, b as real, MinSpeed, MaxSpeed, MinTiltAngle, MaxTiltAngle);
  }

  /** rotate: -180 and 180 degrees go to -pi and pi (single precision), 0 to 0. */
  lemma RotateSpansHalfTurn()
    ensures Map(-180.0, -180.0, 180.0, -FloatPi, FloatPi) == -FloatPi
    ensures Map(180.0, -180.0, 180.0, -FloatPi, FloatPi) == FloatPi
    ensures Map(0.0, -180.0, 180.0, -FloatPi, FloatPi) == 0.0
  {
    MapEndpoints(-180.0, 180.0, -FloatPi, FloatPi);
    MapAffine(0.5, -180.0, 180.0, -FloatPi, FloatPi);
  }

  // ---------------------------------------------------------------------------
  // The mode outcome of one tick

  /** The mode after CalibrationState.update. Both requests are made to the calibration
      handler itself: a stale height signal asks for EMERGENCY_LANDING and, without
      returning, a rise above the calibration height then asks for LANDING. */
  function CalibrationUpdateMode(m: Mode, stale: bool, above: bool, guard: Guard): (r: Mode)
    ensures r == m || r == EmergencyLanding || r == Landing
    ensures above && guard(Landing, NoArg) ==> r == Landing
    ensures !above ==> r == (if stale && guard(EmergencyLanding, NoArg) then EmergencyLanding else m)
  {
    var afterStale := if stale && Permits(Calibration, EmergencyLanding, NoArg, guard) then EmergencyLanding else m;
    if above && Permits(Calibration, Landing, NoArg, guard) then Landing else afterStale
  }

  /** The mode after the two overrides of run(): the full-manual request, then the
      stale-height request, each made to the handler current at that moment. */
  function Overridden(m: Mode, fullManual: bool, stale: bool, height: real, guard: Guard): (r: Mode)
    ensures r == Calibration ==> m == Calibration
  {
    var afterManual := if fullManual then Step(m, ManualControl, NoArg, guard) else m;
    if stale then Step(afterManual, EmergencyLanding, Height(height), guard) else afterManual
  }

  /** The mode at the end of run(): the overrides, then the update of the handler they
      leave current (only CALIBRATION's update can change the mode in this model). */
  function TickMode(m: Mode, fullManual: bool, stale: bool, above: bool, height: real, guard: Guard): (r: Mode)
    ensures r == m || r == ManualControl || r == EmergencyLanding || r == Landing
  {
    var pre := Overridden(m, fullManual, stale, height, guard);
    if pre == Calibration then CalibrationUpdateMode(pre, stale, above, guard) else pre
  }

  /** Full manual wins: once MANUAL_CONTROL is granted, the stale-height request that
      follows in the same tick cannot leave it (MANUAL_CONTROL has no edge to
      EMERGENCY_LANDING). */
  lemma ManualOverrideWins(m: Mode, stale: bool, above: bool, height: real, guard: Guard)
    requires m == ManualControl || guard(ManualControl, NoArg)
    ensures TickMode(m, true, stale, above, height, guard) == ManualControl
  {
    EscapeToManual(m);
  }

  /** Without the manual override, a stale height signal takes every mode with an edge
      to EMERGENCY_LANDING there, when its guard admits the current height. */
  lemma StaleHeightDescends(m: Mode, above: bool, height: real, guard: Guard)
    requires EmergencyLanding in Successors(m) && guard(EmergencyLanding, Height(height))
    ensures TickMode(m, false, true, above, height, guard) == EmergencyLanding
  {
  }

  /** A fresh height signal and no manual override leave every mode but CALIBRATION
      where it is for the tick. */
  lemma QuietTickKeepsMode(m: Mode, above: bool, height: real, guard: Guard)
    requires m != Calibration
    ensures TickMode(m, false, false, above, height, guard) == m
  {
  }

  /** A walk that extends `p` by one step, or not at all when the mode stays. */
  function Extend(p: seq<Mode>, x: Mode): (q: seq<Mode>)
    requires |p| > 0
    ensures |q| > 0 && q[0] == p[0] && q[|q| - 1] == x
  {
    if p[|p| - 1] == x then p else p + [x]
  }

  lemma ExtendIsPath(p: seq<Mode>, x: Mode)
    requires IsPath(p) && (x == p[|p| - 1] || x in Successors(p[|p| - 1]))
    ensures IsPath(Extend(p, x))
  {
    var q := Extend(p, x);
    if q != p {
      forall i | 0 <= i < |q| - 1 ensures q[i + 1] in Successors(q[i]) {
        if i < |p| - 1 {
          assert q[i] == p[i] && q[i + 1] == p[i + 1];
        }
      }
    }
  }

  /** Although CalibrationState.update asks its own (possibly already left) handler
      for LANDING, every mode change within one tick still follows the graph. */
  lemma {:induction false} TickFollowsGraph(m: Mode, fullManual: bool, stale: bool, above: bool, height: real, guard: Guard)
    ensures Reachable(m, TickMode(m, fullManual, stale, above, height, guard))
  {
    var m1 := if fullManual then Step(m, ManualControl, NoArg, guard) else m;
    var m2 := Overridden(m, fullManual, stale, height, guard);
    var p1 := Extend([m], m1);
    ExtendIsPath([m], m1);
    var p2 := Extend(p1, m2);
    ExtendIsPath(p1, m2);
    if m2 == Calibration {
      var m3 := if stale && Permits(Calibration, EmergencyLanding, NoArg, guard) then EmergencyLanding else m2;
      var p3 := Extend(p2, m3);
      ExtendIsPath(p2, m3);
      var m4 := CalibrationUpdateMode(m2, stale, above, guard);
      ExtendIsPath(p3, m4);
      assert IsPath(Extend(p3, m4));
    } else {
      assert IsPath(p2);
    }
  }

  // ---------------------------------------------------------------------------
  // Handlers

  /** CALIBRATION: ramps the throttle up from -100 in steps of 5, at most one step per
      500 ms, until the craft has risen by the calibration height; the throttle one
      step below the one that lifted it becomes the zero-throttle baseline. */
  class CalibrationState {
    var currentThrottle: int
    var lastAdjustmentMillis: int

    function LadderState(): Ladder
      reads this
    {
      Ladder(currentThrottle, lastAdjustmentMillis)
    }

    predicate Valid()
      reads this
    {
      OnLadder(currentThrottle)
    }

    constructor()
      ensures currentThrottle == InitialThrottle && lastAdjustmentMillis == 0
      ensures Valid()
    {
      currentThrottle := InitialThrottle;
      lastAdjustmentMillis := 0;
    }

    /** Sends the handler's throttle (not reset on re-entry) to the craft and records
        it as the computer's current throttle. */
    method Enter(computer: FlightComputer)
      modifies computer`currentThrottle, computer.ufo
      ensures computer.ufo.throttle == currentThrottle
      ensures computer.currentThrottle == currentThrottle
    {
      computer.ufo.Throttle(currentThrottle);
      computer.SetCurrentThrottle(currentThrottle);
    }

    method Exit(computer: FlightComputer)
      ensures unchanged(this, computer, computer.ufo)
    {
    }

    /** One update, `millis` being the clock reading it takes. */
    method Update(computer: FlightComputer, millis: int, guard: Guard)
      requires computer.calibration == this && computer.Valid()
      modifies this, computer`mode, computer`zeroThrottle, computer`currentThrottle, computer.ufo
      ensures computer.Valid()
      ensures LadderState() == Climb(old(LadderState()), computer.AboveCalibrationHeight(), millis)
      ensures computer.mode == CalibrationUpdateMode(old(computer.mode), !computer.HasHeightSignal(),
                                                     computer.AboveCalibrationHeight(), guard)
      ensures computer.zeroThrottle ==
                if computer.AboveCalibrationHeight() then old(currentThrottle) - ThrottleStepForCalibration
                else old(computer.zeroThrottle)
      ensures LadderState() != old(LadderState()) ==>
                computer.ufo.throttle == currentThrottle && computer.currentThrottle == currentThrottle
      ensures LadderState() == old(LadderState()) ==>
                computer.ufo.throttle == old(computer.ufo.throttle) && computer.currentThrottle == old(computer.currentThrottle)
    {
      if !computer.HasHeightSignal() {
        computer.Transition(Calibration, EmergencyLanding, NoArg, guard);
      }
      if computer.height - computer.zeroHeight > CalibrationHeight {
        computer.SetZeroThrottle(currentThrottle - ThrottleStepForCalibration);
        computer.Transition(Calibration, Landing, NoArg, guard);
      } else {
        if millis - lastAdjustmentMillis > CalibrationTimeStep {
          currentThrottle := currentThrottle + ThrottleStepForCalibration;
          computer.ufo.Throttle(currentThrottle);
          computer.SetCurrentThrottle(currentThrottle);
          lastAdjustmentMillis := millis;
        }
      }
    }
  }

  /** WAYPOINT_HOLD: every hook is empty (entering only logs). */
  class WaypointHoldState {
    constructor()
    {
    }

    method Enter(computer: FlightComputer, arg: Arg)
      ensures unchanged(computer, computer.ufo, computer.calibration)
    {
    }

    method Exit(computer: FlightComputer)
      ensures unchanged(computer, computer.ufo, computer.calibration)
    {
    }

    method Update(computer: FlightComputer)
      ensures unchanged(computer, computer.ufo, computer.calibration)
    {
    }
  }

  // ---------------------------------------------------------------------------
  // The flight computer

  class FlightComputer {
    var mode: Mode
    const calibration: CalibrationState
    const waypointHold: WaypointHoldState

    var ufo: QuadCopter
    var autoThrottle: Controller
    var autoElevator: Controller
    var autoAileron: Controller
    var autoRudder: Controller

    var hoverConf: seq<real>
    var landingConf: seq<real>
    var orientationConf: seq<real>

    var minThrottle: int
    var maxThrottle: int
    var minTilt: int
    var maxTilt: int

    const minTiltAngle: real
    const maxTiltAngle: real
    const minSpeed: real
    const maxSpeed: real

    var height: real
    var zeroHeight: real
    var gpsHeight: real
    var zeroGpsHeight: real
    var goalHeight: real

    var longitudinalDisplacement: real
    var lateralDisplacement: real
    var heading: real

    var time: int
    var lastTimeOrientationSignal: int
    var lastTimeHeightSignal: int
    var lastTimeGpsHeight: int

    var currentThrottle: int
    var currentElevator: int
    var currentAileron: int
    var currentRudder: int

    /** Set by CalibrationState when calibration ends. */
    var zeroThrottle: int

    predicate Valid()
      reads this, calibration
    {
      minSpeed < maxSpeed && calibration.Valid()
    }

    /** The height signal is fresh: strictly less than EMERGENCY_DELTA ms old. */
    predicate HasHeightSignal()
      reads this
    {
      time - lastTimeHeightSignal < EmergencyDelta
    }

    predicate AboveCalibrationHeight()
      reads this
    {
      height - zeroHeight > CalibrationHeight
    }

    /** Reads the envelopes from the configuration and stamps every signal time with
        the clock reading `now`. */
    constructor(config: FlightConfiguration, now: int, ufo: QuadCopter,
                autoThrottle: Controller, autoElevator: Controller,
                autoAileron: Controller, autoRudder: Controller)
      requires config.craft.minSpeed < config.craft.maxSpeed
      ensures Valid() && fresh(calibration) && fresh(waypointHold)
      ensures mode == Mode.Ground
      ensures hoverConf == HoverConf && landingConf == LandingConf && orientationConf == OrientationConf
      ensures minThrottle == MinThrottle(config.craft) && maxThrottle == MaxThrottle(config.craft)
      ensures minTilt == MinTilt(config.craft) && maxTilt == MaxTilt(config.craft)
      ensures (minSpeed, maxSpeed) == SpeedRange()
      ensures minTiltAngle == MinTiltAngle && maxTiltAngle == MaxTiltAngle
      ensures time == now && lastTimeHeightSignal == now && lastTimeOrientationSignal == now
      ensures HasHeightSignal()
      ensures calibration.currentThrottle == InitialThrottle && calibration.lastAdjustmentMillis == 0
      ensures this.ufo == ufo && this.autoThrottle == autoThrottle && this.autoElevator == autoElevator
      ensures this.autoAileron == autoAileron && this.autoRudder == autoRudder
      ensures height == 0.0 && zeroHeight == 0.0 && gpsHeight == 0.0 && zeroGpsHeight == 0.0
      ensures goalHeight == 0.0 && !AboveCalibrationHeight()
      ensures longitudinalDisplacement == 0.0 && lateralDisplacement == 0.0 && heading == 0.0
      ensures lastTimeGpsHeight == 0
      ensures currentThrottle == 0 && currentElevator == 0 && currentAileron == 0 && currentRudder == 0
      ensures zeroThrottle == 0
    {
      mode := Mode.Ground;
      calibration := new CalibrationState();
      waypointHold := new WaypointHoldState();
      this.ufo := ufo;
      this.autoThrottle := autoThrottle;
      this.autoElevator := autoElevator;
      this.autoAileron := autoAileron;
      this.autoRudder := autoRudder;
      hoverConf := HoverConf;
      landingConf := LandingConf;
      orientationConf := OrientationConf;
      minThrottle := MinThrottle(config.craft);
      maxThrottle := MaxThrottle(config.craft);
      minTilt := MinTilt(config.craft);
      maxTilt := MaxTilt(config.craft);
      minSpeed := SpeedRange().0;
      maxSpeed := SpeedRange().1;
      minTiltAngle := MinTiltAngle;
      maxTiltAngle := MaxTiltAngle;
      time := now;
      lastTimeHeightSignal := time;
      lastTimeOrientationSignal := time;
      // Java's defaults for the fields the constructor does not assign
      height, zeroHeight, gpsHeight, zeroGpsHeight, goalHeight := 0.0, 0.0, 0.0, 0.0, 0.0;
      longitudinalDisplacement, lateralDisplacement, heading := 0.0, 0.0, 0.0;
      lastTimeGpsHeight := 0;
      currentThrottle, currentElevator, currentAileron, currentRudder := 0, 0, 0, 0;
      zeroThrottle := 0;
    }

    /** A transition request made to the handler of mode `from`: when `Permits` grants
        it, that handler exits and the target handler is entered with the argument. */
    method Transition(from: Mode, target: Mode, arg: Arg, guard: Guard)
      requires Valid()
      modifies this`mode, this`currentThrottle, ufo
      ensures Valid()
      ensures mode == if Permits(from, target, arg, guard) then target else old(mode)
      ensures Permits(from, target, arg, guard) && target == Calibration ==>
                ufo.throttle == calibration.currentThrottle && currentThrottle == calibration.currentThrottle
      ensures !(Permits(from, target, arg, guard) && target == Calibration) ==>
                ufo.throttle == old(ufo.throttle) && currentThrottle == old(currentThrottle)
    {
      if Permits(from, target, arg, guard) {
        if from == Calibration {
          calibration.Exit(this);
        } else if from == WaypointHold {
          waypointHold.Exit(this);
        }
        mode := target;
        if target == Calibration {
          calibration.Enter(this);
        } else if target == WaypointHold {
          waypointHold.Enter(this, arg);
        }
      }
    }

    /** state.transition(event) on the current handler. */
    method Request(target: Mode, arg: Arg, guard: Guard)
      requires Valid() && target != Calibration
      modifies this`mode, this`currentThrottle, ufo
      ensures Valid()
      ensures mode == Step(old(mode), target, arg, guard)
      ensures ufo.throttle == old(ufo.throttle) && currentThrottle == old(currentThrottle)
    {
      Transition(mode, target, arg, guard);
    }

    method Takeoff(h: real, guard: Guard)
      requires Valid()
      modifies this`mode, this`currentThrottle, ufo
      ensures Valid()
      ensures mode == Step(old(mode), Mode.Hover, Height(h), guard)
      ensures ufo.throttle == old(ufo.throttle) && currentThrottle == old(currentThrottle)
    {
      Request(Mode.Hover, Height(h), guard);
    }

    method Hover(h: real, guard: Guard)
      requires Valid()
      modifies this`mode, this`currentThrottle, ufo
      ensures Valid()
      ensures mode == Step(old(mode), Mode.Hover, Height(h), guard)
      ensures ufo.throttle == old(ufo.throttle) && currentThrottle == old(currentThrottle)
    {
      Request(Mode.Hover, Height(h), guard);
    }

    method Ground(guard: Guard)
      requires Valid()
      modifies this`mode, this`currentThrottle, ufo
      ensures Valid()
      ensures mode == Step(old(mode), Mode.Ground, NoArg, guard)
      ensures ufo.throttle == old(ufo.throttle) && currentThrottle == old(currentThrottle)
    {
      Request(Mode.Ground, NoArg, guard);
    }

    method Land(guard: Guard)
      requires Valid()
      modifies this`mode, this`currentThrottle, ufo
      ensures Valid()
      ensures mode == Step(old(mode), Landing, NoArg, guard)
      ensures ufo.throttle == old(ufo.throttle) && currentThrottle == old(currentThrottle)
    {
      Request(Landing, NoArg, guard);
    }

    method EmergencyDescent(guard: Guard)
      requires Valid()
      modifies this`mode, this`currentThrottle, ufo
      ensures Valid()
      ensures mode == Step(old(mode), EmergencyLanding, Height(height), guard)
      ensures ufo.throttle == old(ufo.throttle) && currentThrottle == old(currentThrottle)
    {
      Request(EmergencyLanding, Height(height), guard);
    }

    method ManualControl(guard: Guard)
      requires Valid()
      modifies this`mode, this`currentThrottle, ufo
      ensures Valid()
      ensures mode == Step(old(mode), Mode.ManualControl, NoArg, guard)
      ensures ufo.throttle == old(ufo.throttle) && currentThrottle == old(currentThrottle)
    {
      Request(Mode.ManualControl, NoArg, guard);
    }

    /** autoControl: back to HOVER at the current height. */
    method AutoControl(guard: Guard)
      requires Valid()
      modifies this`mode, this`currentThrottle, ufo
      ensures Valid()
      ensures mode == Step(old(mode), Mode.Hover, Height(height), guard)
      ensures ufo.throttle == old(ufo.throttle) && currentThrottle == old(currentThrottle)
    {
      Request(Mode.Hover, Height(height), guard);
    }

    method Abort(guard: Guard)
      requires Valid()
      modifies this`mode, this`currentThrottle, ufo
      ensures Valid()
      ensures mode == Step(old(mode), Failed, NoArg, guard)
      ensures ufo.throttle == old(ufo.throttle) && currentThrottle == old(currentThrottle)
    {
      Request(Failed, NoArg, guard);
    }

    method Stabilize(b: bool, guard: Guard)
      requires Valid()
      modifies this`mode, this`currentThrottle, ufo
      ensures Valid()
      ensures mode == Step(old(mode), if b then StabilizedHover else Mode.Hover, Height(goalHeight), guard)
      ensures ufo.throttle == old(ufo.throttle) && currentThrottle == old(currentThrottle)
    {
      if b {
        Request(StabilizedHover, Height(goalHeight), guard);
      } else {
        Request(Mode.Hover, Height(goalHeight), guard);
      }
    }

    /** In STABILIZED_HOVER, the stick position becomes the elevator's tilt goal. */
    method Forward(speed: int)
      requires Valid()
      modifies autoElevator
      ensures mode == StabilizedHover ==>
                autoElevator.goal == Map(speed as real, minSpeed, maxSpeed, minTiltAngle, maxTiltAngle)
      ensures mode != StabilizedHover ==> autoElevator.goal == old(autoElevator.goal)
    {
      if mode == StabilizedHover {
        var angle := Map(speed as real, minSpeed, maxSpeed, minTiltAngle, maxTiltAngle);
        autoElevator.SetGoal(angle);
      }
    }

    /** As written, sideways also sets the elevator's goal; the aileron is untouched. */
    method Sideways(speed: int)
      requires Valid()
      modifies autoElevator
      ensures mode == StabilizedHover ==>
                autoElevator.goal == Map(speed as real, minSpeed, maxSpeed, minTiltAngle, maxTiltAngle)
      ensures mode != StabilizedHover ==> autoElevator.goal == old(autoElevator.goal)
    {
      if mode == StabilizedHover {
        var angle := Map(speed as real, minSpeed, maxSpeed, minTiltAngle, maxTiltAngle);
        autoElevator.SetGoal(angle);
      }
    }

    /** In STABILIZED_HOVER, an angle in degrees becomes the rudder's goal in radians. */
    method Rotate(angle: int)
      modifies autoRudder
      ensures mode == StabilizedHover ==>
                autoRudder.goal == Map(angle as real, -180.0, 180.0, -FloatPi, FloatPi)
      ensures mode != StabilizedHover ==> autoRudder.goal == old(autoRudder.goal)
    {
      if mode == StabilizedHover {
        var radian := Map(angle as real, -180.0, 180.0, -FloatPi, FloatPi);
        autoRudder.SetGoal(radian);
      }
    }

    /** One tick. `now` is the clock reading of run() itself, `fullManual` whether the
        remote-control mask equals FULL_MANUAL, and `millis` the clock reading a
        calibration update takes. */
    method Run(now: int, fullManual: bool, millis: int, guard: Guard)
      requires Valid()
      modifies this`time, this`mode, this`zeroThrottle, this`currentThrottle, ufo, calibration
      ensures Valid()
      ensures time == now
      ensures mode == TickMode(old(mode), fullManual, !HasHeightSignal(), AboveCalibrationHeight(), height, guard)
      ensures var calibrating := Overridden(old(mode), fullManual, !HasHeightSignal(), height, guard) == Calibration;
              calibration.LadderState() ==
                (if calibrating then Climb(old(calibration.LadderState()), AboveCalibrationHeight(), millis)
                 else old(calibration.LadderState())) &&
              zeroThrottle ==
                (if calibrating && AboveCalibrationHeight() then old(calibration.currentThrottle) - ThrottleStepForCalibration
                 else old(zeroThrottle))
      ensures calibration.LadderState() != old(calibration.LadderState()) ==>
                ufo.throttle == calibration.currentThrottle && currentThrottle == calibration.currentThrottle
      ensures calibration.LadderState() == old(calibration.LadderState()) ==>
                ufo.throttle == old(ufo.throttle) && currentThrottle == old(currentThrottle)
    {
      time := now;
      if fullManual {
        ManualControl(guard);
      }
      if !HasHeightSignal() {
        EmergencyDescent(guard);
      }
      if mode == Calibration {
        calibration.Update(this, millis, guard);
      } else if mode == WaypointHold {
        waypointHold.Update(this);
      }
    }

    // -------------------------------------------------------------------------
    // Setters: each changes its own field and nothing else.

    method SetState(m: Mode)
      modifies this`mode
      ensures mode == m
    {
      mode := m;
    }

    method SetHoverConf(conf: seq<real>)
      modifies this`hoverConf
      ensures hoverConf == conf
    {
      hoverConf := conf;
    }

    method SetLandingConf(conf: seq<real>)
      modifies this`landingConf
      ensures landingConf == conf
    {
      landingConf := conf;
    }

    method SetOrientationConf(conf: seq<real>)
      modifies this`orientationConf
      ensures orientationConf == conf
    {
      orientationConf := conf;
    }

    method SetMinThrottle(min: int)
      modifies this`minThrottle
      ensures minThrottle == min
    {
      minThrottle := min;
    }

    method SetMaxThrottle(max: int)
      modifies this`maxThrottle
      ensures maxThrottle == max
    {
      maxThrottle := max;
    }

    method SetMinTilt(minTilt: int)
      modifies this`minTilt
      ensures this.minTilt == minTilt
    {
      this.minTilt := minTilt;
    }

    method SetMaxTilt(maxTilt: int)
      modifies this`maxTilt
      ensures this.maxTilt == maxTilt
    {
      this.maxTilt := maxTilt;
    }

    method SetLongitudinalDisplacement(d: real)
      modifies this`longitudinalDisplacement
      ensures longitudinalDisplacement == d
    {
      longitudinalDisplacement := d;
    }

    method SetLateralDisplacement(d: real)
      modifies this`lateralDisplacement
      ensures lateralDisplacement == d
    {
      lateralDisplacement := d;
    }

    method SetUfo(ufo: QuadCopter)
      modifies this`ufo
      ensures this.ufo == ufo
    {
      this.ufo := ufo;
    }

    method SetAutoThrottle(c: Controller)
      modifies this`autoThrottle
      ensures autoThrottle == c
    {
      autoThrottle := c;
    }

    method SetAutoElevator(c: Controller)
      modifies this`autoElevator
      ensures autoElevator == c
    {
      autoElevator := c;
    }

    method SetAutoAileron(c: Controller)
      modifies this`autoAileron
      ensures autoAileron == c
    {
      autoAileron := c;
    }

    method SetAutoRudder(c: Controller)
      modifies this`autoRudder
      ensures autoRudder == c
    {
      autoRudder := c;
    }

    method SetLastTimeOrientationSignal(t: int)
      modifies this`lastTimeOrientationSignal
      ensures lastTimeOrientationSignal == t
    {
      lastTimeOrientationSignal := t;
    }

    method SetLastTimeHeightSignal(t: int)
      modifies this`lastTimeHeightSignal
      ensures lastTimeHeightSignal == t
    {
      lastTimeHeightSignal := t;
    }

    method SetLastTimeGpsHeight(t: int)
      modifies this`lastTimeGpsHeight
      ensures lastTimeGpsHeight == t
    {
      lastTimeGpsHeight := t;
    }

    method SetHeight(h: real)
      modifies this`height
      ensures height == h
    {
      height := h;
    }

    method SetHeading(h: real)
      modifies this`heading
      ensures heading == h
    {
      heading := h;
    }

    method SetTime(t: int)
      modifies this`time
      ensures time == t
    {
      time := t;
    }

    method SetCurrentThrottle(v: int)
      modifies this`currentThrottle
      ensures currentThrottle == v
    {
      currentThrottle := v;
    }

    method SetCurrentElevator(v: int)
      modifies this`currentElevator
      ensures currentElevator == v
    {
      currentElevator := v;
    }

    method SetCurrentAileron(v: int)
      modifies this`currentAileron
      ensures currentAileron == v
    {
      currentAileron := v;
    }

    method SetCurrentRudder(v: int)
      modifies this`currentRudder
      ensures currentRudder == v
    {
      currentRudder := v;
    }

    method SetGpsHeight(h: real)
      modifies this`gpsHeight
      ensures gpsHeight == h
    {
      gpsHeight := h;
    }

    method SetZeroHeight(h: real)
      modifies this`zeroHeight
      ensures zeroHeight == h
    {
      zeroHeight := h;
    }

    method SetZeroGpsHeight(h: real)
      modifies this`zeroGpsHeight
      ensures zeroGpsHeight == h
    {
      zeroGpsHeight := h;
    }

    method SetGoalHeight(h: real)
      modifies this`goalHeight
      ensures goalHeight == h
    {
      goalHeight := h;
    }

    method SetZeroThrottle(v: int)
      modifies this`zeroThrottle
      ensures zeroThrottle == v
    {
      zeroThrottle := v;
    }
  }
}
