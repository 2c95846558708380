# AndroidPilot flight core in Dafny

AndroidPilot flies a quadcopter from an Android phone. This project models the part
of it that decides what the craft is doing, and proves properties of that model:

- **The flight-mode machine.** There are ten modes, from GROUND to FAILED. The
  builder wires the transition graph between them once, at start-up.
- **The flight computer.** Its tick overrides the current mode for full-manual
  control, then for a stale height signal, then runs the current mode's update. It
  also has the command methods and the stick-to-goal mapping.
- **The calibration handler.** It ramps the throttle in steps of 5, at most one step
  per 500 ms. When the craft lifts off, it records a zero-throttle baseline.
- **The waypoint-hold handler.** All of its hooks are empty.
- **The serial command reader.** It frames commands at `;` and trims them. A
  `z<ms>` command opens a sleep window.
- **The ultrasound conversion.** It turns an echo time into a distance in
  centimetres, or into no reading.
- **The configuration.** This is the constants, the pin map and the lazily created
  single instance.

The model has one module per component:

| module | contents |
|---|---|
| `JavaLang` | Java's truncating integer division, `String.trim` and `Integer.parseInt` |
| `FlightStates` | The modes and the transition graph `Successors` |
| `Builder` | `FlightBuilder`, which builds that graph |
| `Configuration` | `FlightConfiguration` |
| `ControlMap` | The linear `map` |
| `CalibrationLadder` | The throttle ramp, as values |
| `Flight` | The computer and the two handlers, as classes |
| `Serial` | `SerialController` |
| `Ultrasound` | `UltrasoundSignal` |

**How a mode change is decided.** `FlightState.transition` is not part of this
model, so its rule is an explicit assumption, `FlightStates.Permits`. A request made
to the handler of mode `from` goes through exactly when both of these hold:

- the target is in `Successors(from)`;
- the target's guard admits the argument.

The guard of CALIBRATION always admits. The guards of the other handlers are one
external parameter, `guard`. A granted request exits the requesting handler and
enters the target.

**Inputs.** Clock readings, the remote-control mask and these guards are parameters.
Floats are modelled as reals.

**Behaviour of the code worth knowing:**

- **FAILED is not terminal.** The escape loop for MANUAL_CONTROL also gives FAILED an
  edge to MANUAL_CONTROL, so every mode except WAYPOINT_TRACK can be reached from
  FAILED (`FlightStates.RecoverableFromAnywhere`).
- **The new mode updates in the same tick.** `run()` calls `update()` on whichever
  handler the two overrides leave current. A mode entered by an override therefore
  runs its update in that same tick.
- **A stale height signal in HOVER does not always lead to EMERGENCY_LANDING.**
  - If full-manual control is engaged in the same tick, MANUAL_CONTROL wins, because
    it has no edge to EMERGENCY_LANDING.
  - Otherwise the descent still depends on the EMERGENCY_LANDING guard.
- **CALIBRATION keeps going after a stale-height request.** Its update requests
  EMERGENCY_LANDING and does not return. In the same call it can still raise the
  throttle, or request LANDING from its own handler, which it has already left.
- **The rest of the core, as written:**
  - `sideways` sets the elevator goal, as `forward` does.
  - `"z 500"` is rejected: the result of `num.trim()` is discarded.
  - The `delim` argument of `SerialController` is stored and never used.

## Model

| member | source | states |
|---|---|---|
| `JavaLang.Quot` | src/com/barbermot/pilot/UltrasoundSignal.java:43 | Java `/` on integers truncates toward zero: the quotient's magnitude is the largest whole number of divisors that fits in the dividend, with the dividend's sign |
| `JavaLang.Trim` | src/com/barbermot/pilot/parser/SerialController.java:71 | The trimmed string is the slice from the first to the last character above U+0020. Every such character lies inside it. Its ends are not blank |
| `JavaLang.TrimAllBlank` | src/com/barbermot/pilot/parser/SerialController.java:71-73 | The trimmed string is empty exactly when every character is blank |
| `JavaLang.TrimKeepsTrimmed` | src/com/barbermot/pilot/parser/SerialController.java:71 | A string with no blank at either end is its own trim |
| `JavaLang.TrimIdempotent` | src/com/barbermot/pilot/parser/SerialController.java:71 | Trimming twice is trimming once |
| `JavaLang.ParseInt` | src/com/barbermot/pilot/parser/SerialController.java:80 | `Integer.parseInt` accepts only an optional `+` or `-` followed by at least one digit, with the value in the int range; a bare sign is rejected. For every such spelling, leading zeros and `-0` included, the result is the digits' value, negated after `-`, and it is `None` exactly when that value is out of range. Anything else is a NumberFormatException, modelled as `None` |
| `JavaLang.ParseIntLeadingZero` | src/com/barbermot/pilot/parser/SerialController.java:80 | A leading `0` does not change what parseInt reads from a run of digits: `"007"` reads as 7 |
| `JavaLang.ParseIntDecimal` | src/com/barbermot/pilot/parser/SerialController.java:80 | parseInt reads back every nonnegative int written in decimal, with or without `+` |
| `JavaLang.ParseIntNegative` | src/com/barbermot/pilot/parser/SerialController.java:80 | parseInt reads back every negative int written in decimal with `-` |
| `JavaLang.ParseIntRejectsBlank` | src/com/barbermot/pilot/parser/SerialController.java:78-80 | A blank anywhere in the text makes parseInt fail |
| `FlightStates.Step` | src/com/barbermot/pilot/flight/FlightComputer.java:114-116 | A request to the current handler either keeps the mode or moves to the target. It moves exactly when `Permits` holds, which is only along an edge of the graph. A refused request keeps the mode |
| `FlightStates.Successors` | src/com/barbermot/pilot/builder/FlightBuilder.java:350-416 | The transition graph the builder wires: for each mode, the set of modes its handler may request |
| `FlightStates.Admits` | src/com/barbermot/pilot/flight/state/CalibrationState.java:15-17 | CALIBRATION's guard admits every request; every other target's guard is the `guard` parameter |
| `FlightStates.Permits` | src/com/barbermot/pilot/flight/FlightComputer.java:114-147 | A request is granted when the target is a successor of the requesting mode and the target's guard admits the argument |
| `FlightStates.CalibrationEntryOnlyFromGround` | src/com/barbermot/pilot/flight/state/CalibrationState.java:15-17 | Because CALIBRATION's guard admits everything, a request for CALIBRATION is granted exactly when it is made from GROUND, and otherwise keeps the mode |
| `FlightStates.AllModesListed` | src/com/barbermot/pilot/builder/FlightBuilder.java:277-347 | Each of the ten modes is registered |
| `FlightStates.EscapeToFailed` | src/com/barbermot/pilot/builder/FlightBuilder.java:353-358 | Every mode except FAILED has an edge to FAILED, and FAILED has no self-loop |
| `FlightStates.EscapeToManual` | src/com/barbermot/pilot/builder/FlightBuilder.java:360-365 | Every mode except MANUAL_CONTROL has an edge to MANUAL_CONTROL, and MANUAL_CONTROL has no self-loop |
| `FlightStates.FailedLeadsOnlyToManual` | src/com/barbermot/pilot/builder/FlightBuilder.java:353-414 | FAILED's only successor is MANUAL_CONTROL. MANUAL_CONTROL's successors are FAILED, HOVER and LANDING |
| `FlightStates.SelfLoops` | src/com/barbermot/pilot/builder/FlightBuilder.java:377-410 | Self-loops exist exactly on HOVER, STABILIZED_HOVER and WAYPOINT_HOLD |
| `FlightStates.Entrances` | src/com/barbermot/pilot/builder/FlightBuilder.java:367-414 | GROUND is entered only from LANDING and CALIBRATION only from GROUND. No edge enters WAYPOINT_TRACK, whose only exits are FAILED and MANUAL_CONTROL |
| `FlightStates.EscapesAlwaysGranted` | src/com/barbermot/pilot/builder/FlightBuilder.java:353-365 | A request for FAILED or MANUAL_CONTROL that its guard admits succeeds from every other mode |
| `FlightStates.PathsAvoidWaypointTrack` | src/com/barbermot/pilot/builder/FlightBuilder.java:343-414 | A walk along the graph that does not start in WAYPOINT_TRACK never visits it |
| `FlightStates.WaypointTrackUnreachable` | src/com/barbermot/pilot/builder/FlightBuilder.java:343-414 | WAYPOINT_TRACK cannot be reached from GROUND |
| `FlightStates.ReachableTransitive` | src/com/barbermot/pilot/builder/FlightBuilder.java:350-416 | Reachability in the graph composes |
| `FlightStates.EveryModeReachesGround` | src/com/barbermot/pilot/builder/FlightBuilder.java:350-416 | GROUND can be reached from every mode, FAILED included |
| `FlightStates.GroundReachesAllButWaypointTrack` | src/com/barbermot/pilot/builder/FlightBuilder.java:350-416 | Every mode except WAYPOINT_TRACK can be reached from GROUND |
| `FlightStates.RecoverableFromAnywhere` | src/com/barbermot/pilot/builder/FlightBuilder.java:350-416 | Every mode except WAYPOINT_TRACK can be reached from every mode. In particular, FAILED is not absorbing |
| `Builder.FlightBuilder.constructor` | src/com/barbermot/pilot/builder/FlightBuilder.java:138-142 | The builder starts with an empty handler map for its computer |
| `Builder.FlightBuilder.Put` | src/com/barbermot/pilot/builder/FlightBuilder.java:281 | A new handler, tagged with its mode, is registered under that mode |
| `Builder.FlightBuilder.BuildFlightStates` | src/com/barbermot/pilot/builder/FlightBuilder.java:274-348 | Afterwards every mode has exactly one handler, tagged with that mode and with no transitions yet. The computer's mode is GROUND |
| `Builder.FlightBuilder.AddTransition` | src/com/barbermot/pilot/builder/FlightBuilder.java:356 | Adds one mode to one handler's transition set and changes nothing else |
| `Builder.FlightBuilder.AddEscape` | src/com/barbermot/pilot/builder/FlightBuilder.java:353-365 | One escape loop adds the target to every handler except the target's own, and adds nothing else |
| `Builder.FlightBuilder.WireGround` | src/com/barbermot/pilot/builder/FlightBuilder.java:367-370 | GROUND gains HOVER, WAYPOINT_HOLD and CALIBRATION. The other handlers are unchanged |
| `Builder.FlightBuilder.WireCalibration` | src/com/barbermot/pilot/builder/FlightBuilder.java:372-375 | CALIBRATION gains EMERGENCY_LANDING and LANDING. The other handlers are unchanged |
| `Builder.FlightBuilder.WireHover` | src/com/barbermot/pilot/builder/FlightBuilder.java:377-382 | HOVER gains HOVER, STABILIZED_HOVER, WAYPOINT_HOLD, EMERGENCY_LANDING and LANDING. The other handlers are unchanged |
| `Builder.FlightBuilder.WireEmergencyLanding` | src/com/barbermot/pilot/builder/FlightBuilder.java:384-385 | EMERGENCY_LANDING gains LANDING. The other handlers are unchanged |
| `Builder.FlightBuilder.WireLanding` | src/com/barbermot/pilot/builder/FlightBuilder.java:387-391 | LANDING gains HOVER, WAYPOINT_HOLD, EMERGENCY_LANDING and GROUND. The other handlers are unchanged |
| `Builder.FlightBuilder.WireStabilizedHover` | src/com/barbermot/pilot/builder/FlightBuilder.java:393-401 | STABILIZED_HOVER gains HOVER, WAYPOINT_HOLD, itself, LANDING and EMERGENCY_LANDING. The other handlers are unchanged |
| `Builder.FlightBuilder.WireWaypointHold` | src/com/barbermot/pilot/builder/FlightBuilder.java:403-410 | WAYPOINT_HOLD gains HOVER, STABILIZED_HOVER, itself, EMERGENCY_LANDING and LANDING. The other handlers are unchanged |
| `Builder.FlightBuilder.WireManualControl` | src/com/barbermot/pilot/builder/FlightBuilder.java:412-414 | MANUAL_CONTROL gains HOVER and LANDING. The other handlers are unchanged |
| `Builder.FlightBuilder.WireModes` | src/com/barbermot/pilot/builder/FlightBuilder.java:367-414 | Together, the per-mode blocks add to each handler exactly its own block's edges |
| `Builder.WiringComposed` | src/com/barbermot/pilot/builder/FlightBuilder.java:367-414 | Running the eight per-mode blocks one after another adds to each handler exactly its own block's edges. WAYPOINT_TRACK and FAILED are untouched |
| `Builder.Wiring` | src/com/barbermot/pilot/builder/FlightBuilder.java:367-414 | The edges each mode's block of `buildTransitions` adds, besides the two escape loops |
| `Builder.SuccessorsAssembled` | src/com/barbermot/pilot/builder/FlightBuilder.java:350-416 | For each mode, the two escape edges plus its block's edges are exactly its successors in the graph |
| `Builder.FlightBuilder.BuildTransitions` | src/com/barbermot/pilot/builder/FlightBuilder.java:350-416 | Starting from freshly registered handlers, every handler ends up listing exactly `Successors` of its mode |
| `Configuration.DeclaredPin` | src/com/barbermot/pilot/flight/FlightConfiguration.java:11-28 | The IOIO pin the configuration declares for each pin type |
| `Configuration.MinThrottle` | src/com/barbermot/pilot/flight/FlightConfiguration.java:53-55 | The initial minimum throttle lies a third of the speed range above MIN_SPEED, the third truncated |
| `Configuration.MaxThrottle` | src/com/barbermot/pilot/flight/FlightConfiguration.java:56-58 | The initial maximum throttle lies an eighth of the speed range below MAX_SPEED, the eighth truncated |
| `Configuration.MinTilt` | src/com/barbermot/pilot/flight/FlightConfiguration.java:61 | MIN_TILT is half of MIN_SPEED, truncated toward zero |
| `Configuration.MaxTilt` | src/com/barbermot/pilot/flight/FlightConfiguration.java:62 | MAX_TILT is half of MAX_SPEED, truncated toward zero |
| `Configuration.EmergencyDescent` | src/com/barbermot/pilot/flight/FlightConfiguration.java:68-70 | The throttle held when the height is unknown lies a twentieth of the speed range below STOP_SPEED, the twentieth truncated |
| `Configuration.PinsDistinct` | src/com/barbermot/pilot/flight/FlightConfiguration.java:11-28 | No two pin types are assigned the same IOIO pin |
| `Configuration.ThrottleEnvelope` | src/com/barbermot/pilot/flight/FlightConfiguration.java:54-59 | For any craft speed range, MIN_THROTTLE < MAX_THROTTLE, and both lie within the range (Java int division) |
| `Configuration.FlightConfiguration.constructor` | src/com/barbermot/pilot/flight/FlightConfiguration.java:115-131 | The pin map has an entry for every one of the 14 pin types, and each entry is its declared pin. The settable fields get their declared defaults |
| `Configuration.FlightConfiguration.SetSimulation` | src/com/barbermot/pilot/flight/FlightConfiguration.java:253-255 | Sets only `isSimulation` |
| `Configuration.FlightConfiguration.SetConnectionType` | src/com/barbermot/pilot/flight/FlightConfiguration.java:261-263 | Sets only `connectionType` |
| `Configuration.FlightConfiguration.SetSerialUrl` | src/com/barbermot/pilot/flight/FlightConfiguration.java:269-271 | Sets only `serialUrl` |
| `Configuration.FlightConfiguration.SetSerialPort` | src/com/barbermot/pilot/flight/FlightConfiguration.java:277-279 | Sets only `serialPort` |
| `Configuration.FlightConfiguration.SetRemoteControlPort` | src/com/barbermot/pilot/flight/FlightConfiguration.java:289-291 | Sets only `remoteControlPort` |
| `Configuration.FlightConfiguration.SetDefaultGain` | src/com/barbermot/pilot/flight/FlightConfiguration.java:305-307 | Sets only `defaultGain` |
| `Configuration.ConfigurationHolder.constructor` | src/com/barbermot/pilot/flight/FlightConfiguration.java:113 | No instance exists before the first `get()` |
| `Configuration.ConfigurationHolder.Get` | src/com/barbermot/pilot/flight/FlightConfiguration.java:133-135 | The first call creates a fresh configuration with the full pin map, and every later call returns that same instance |
| `ControlMap.Map` | src/com/barbermot/pilot/flight/FlightComputer.java:184-187 | The result lies as far along the output range, in proportion, as the input lies along the input range |
| `ControlMap.MapEndpoints` | src/com/barbermot/pilot/flight/FlightComputer.java:184-187 | `map` sends minIn to minOut and maxIn to maxOut |
| `ControlMap.MapAffine` | src/com/barbermot/pilot/flight/FlightComputer.java:184-187 | `map` is affine: the point a fraction t along the input range goes to the point the same fraction along the output range |
| `ControlMap.MapMonotone` | src/com/barbermot/pilot/flight/FlightComputer.java:184-187 | With ascending ranges, `map` preserves order and keeps inputs from the input range inside the output range |
| `ControlMap.FloatMap` | src/com/barbermot/pilot/flight/FlightComputer.java:184-187 | In this model of float arithmetic, `map` is non-finite exactly when the input range has zero width, and otherwise it equals the real-valued map |
| `CalibrationLadder.Climb` | src/com/barbermot/pilot/flight/state/CalibrationState.java:40-50 | One update either leaves the throttle and timestamp alone or raises the throttle by exactly 5, stamped with the clock. Above the height threshold, or within 500 ms of the last step (the test is strict), nothing moves. The throttle stays on the ladder -100 + 5k |
| `CalibrationLadder.ClimbAllBounds` | src/com/barbermot/pilot/flight/state/CalibrationState.java:10-50 | Over any sequence of updates the throttle never falls, rises by at most 5 per update, and stays on the ladder |
| `CalibrationLadder.SteadyClimb` | src/com/barbermot/pilot/flight/state/CalibrationState.java:40-50 | Updates spaced more than 500 ms apart raise the throttle by exactly 5 each. The last one's time is recorded |
| `CalibrationLadder.CalibrationBaseline` | src/com/barbermot/pilot/flight/state/CalibrationState.java:35-50 | From a fresh handler, lift-off after n well-spaced steps gives a zero-throttle baseline of -100 + 5(n - 1) |
| `Flight.SpeedRange` | src/com/barbermot/pilot/flight/FlightComputer.java:99-100 | The corrected stick range [MIN_SPEED, MAX_SPEED] is non-empty |
| `Flight.ForwardAsWrittenNeverFinite` | src/com/barbermot/pilot/flight/FlightComputer.java:160-166 | With the range as written, `forward` and `sideways` compute a non-finite tilt goal for every stick position |
| `Flight.ForwardSpansTiltRange` | src/com/barbermot/pilot/flight/FlightComputer.java:160-166 | With the corrected range, full stick gives the full tilt, -pi/4 or pi/4. Positions in between give tilts inside that envelope, in order |
| `Flight.RotateSpansHalfTurn` | src/com/barbermot/pilot/flight/FlightComputer.java:176-182 | `rotate` maps -180, 0 and 180 degrees to -pi, 0 and pi (single-precision pi) |
| `Flight.FlightComputer.HasHeightSignal` | src/com/barbermot/pilot/flight/FlightComputer.java:214-216 | The height signal is fresh when less than EMERGENCY_DELTA has passed since it was last stamped (strict) |
| `Flight.FlightComputer.AboveCalibrationHeight` | src/com/barbermot/pilot/flight/state/CalibrationState.java:35-36 | The craft is above the calibration height when its height over the zero height exceeds the threshold (strict) |
| `Flight.TickMode` | src/com/barbermot/pilot/flight/FlightComputer.java:189-212 | The mode at the end of a tick is the starting mode, MANUAL_CONTROL, EMERGENCY_LANDING or LANDING |
| `Flight.CalibrationUpdateMode` | src/com/barbermot/pilot/flight/state/CalibrationState.java:30-52 | After the calibration update the mode is unchanged, EMERGENCY_LANDING or LANDING. Above the threshold, LANDING wins when its guard admits. Below it, only a stale signal can move the mode, to EMERGENCY_LANDING |
| `Flight.Overridden` | src/com/barbermot/pilot/flight/FlightComputer.java:195-206 | The two overrides can leave the computer in CALIBRATION only if it started there |
| `Flight.ManualOverrideWins` | src/com/barbermot/pilot/flight/FlightComputer.java:195-206 | With full manual engaged, the tick ends in MANUAL_CONTROL whenever that mode is current or its guard admits the request, stale height or not |
| `Flight.StaleHeightDescends` | src/com/barbermot/pilot/flight/FlightComputer.java:201-208 | With a stale height signal and no manual override, every mode with an edge to EMERGENCY_LANDING ends the tick there, provided EMERGENCY_LANDING's guard admits the current height |
| `Flight.QuietTickKeepsMode` | src/com/barbermot/pilot/flight/FlightComputer.java:189-212 | With a fresh height signal and no manual override, a tick keeps every mode except CALIBRATION (within this model) |
| `Flight.TickFollowsGraph` | src/com/barbermot/pilot/flight/FlightComputer.java:189-212 | The mode at the end of a tick can be reached from the mode at its start by a walk along the graph, although calibration requests LANDING from its own handler |
| `Flight.CalibrationState.constructor` | src/com/barbermot/pilot/flight/state/CalibrationState.java:10-12 | The handler starts at throttle -100, on the ladder |
| `Flight.CalibrationState.Enter` | src/com/barbermot/pilot/flight/state/CalibrationState.java:20-24 | Entering sends the handler's current throttle to the craft and records it as the computer's current throttle. That throttle is not reset on re-entry |
| `Flight.CalibrationState.Exit` | src/com/barbermot/pilot/flight/state/CalibrationState.java:27 | Exit changes nothing |
| `Flight.CalibrationState.Update` | src/com/barbermot/pilot/flight/state/CalibrationState.java:30-52 | The ramp advances by `Climb`. The mode follows `CalibrationUpdateMode`. Above the threshold, zero-throttle becomes the throttle minus 5. The craft's and computer's throttles change only, and together, when the ramp steps. The ladder invariant is kept |
| `Flight.WaypointHoldState.Enter` | src/com/barbermot/pilot/flight/state/WaypointHoldState.java:10-12 | Entering changes no state |
| `Flight.WaypointHoldState.Exit` | src/com/barbermot/pilot/flight/state/WaypointHoldState.java:15 | Exit changes no state |
| `Flight.WaypointHoldState.Update` | src/com/barbermot/pilot/flight/state/WaypointHoldState.java:18 | Update changes no state and requests no transition |
| `Flight.FlightComputer.constructor` | src/com/barbermot/pilot/flight/FlightComputer.java:86-108 | Copies the configuration's PID profiles and envelopes and uses the corrected stick range. It stamps time and the height and orientation signal times with the same clock reading, so the height signal is fresh at once. The fields the constructor leaves to Java's defaults are zero: the heights, goal height, displacements, heading, GPS height time, the four current control outputs and zero-throttle, so the craft is not yet above the calibration height. Its calibration handler starts fresh: throttle -100, last adjustment at 0 |
| `Flight.FlightComputer.Transition` | src/com/barbermot/pilot/flight/state/CalibrationState.java:20-27 | Under the `Permits` rule the mode becomes the target or stays. Entering CALIBRATION sends its throttle to the craft and to the computer. No other modelled transition touches the throttles |
| `Flight.FlightComputer.Request` | src/com/barbermot/pilot/flight/FlightComputer.java:114-147 | A request to the current handler changes the mode per `Step` and leaves the throttles alone |
| `Flight.FlightComputer.Takeoff` | src/com/barbermot/pilot/flight/FlightComputer.java:114-117 | Requests HOVER with the given height |
| `Flight.FlightComputer.Hover` | src/com/barbermot/pilot/flight/FlightComputer.java:119-121 | Requests HOVER with the given height |
| `Flight.FlightComputer.Ground` | src/com/barbermot/pilot/flight/FlightComputer.java:123-125 | Requests GROUND with no argument |
| `Flight.FlightComputer.Land` | src/com/barbermot/pilot/flight/FlightComputer.java:127-129 | Requests LANDING with no argument |
| `Flight.FlightComputer.EmergencyDescent` | src/com/barbermot/pilot/flight/FlightComputer.java:131-134 | Requests EMERGENCY_LANDING with the current height |
| `Flight.FlightComputer.ManualControl` | src/com/barbermot/pilot/flight/FlightComputer.java:136-139 | Requests MANUAL_CONTROL with no argument |
| `Flight.FlightComputer.AutoControl` | src/com/barbermot/pilot/flight/FlightComputer.java:141-143 | Requests HOVER with the current height |
| `Flight.FlightComputer.Abort` | src/com/barbermot/pilot/flight/FlightComputer.java:145-147 | Requests FAILED with no argument |
| `Flight.FlightComputer.Stabilize` | src/com/barbermot/pilot/flight/FlightComputer.java:149-158 | Requests STABILIZED_HOVER if true and HOVER if false, both with the goal height |
| `Flight.FlightComputer.Forward` | src/com/barbermot/pilot/flight/FlightComputer.java:160-166 | Only in STABILIZED_HOVER, sets the elevator goal to the stick position mapped onto the tilt range. Otherwise it changes nothing |
| `Flight.FlightComputer.Sideways` | src/com/barbermot/pilot/flight/FlightComputer.java:168-174 | Same as `forward`: only in STABILIZED_HOVER, and it sets the elevator's goal, not the aileron's |
| `Flight.FlightComputer.Rotate` | src/com/barbermot/pilot/flight/FlightComputer.java:176-182 | Only in STABILIZED_HOVER, sets the rudder goal to the angle mapped from [-180, 180] onto [-pi, pi]. Otherwise it changes nothing |
| `Flight.FlightComputer.Run` | src/com/barbermot/pilot/flight/FlightComputer.java:189-212 | The tick stamps the time, then requests MANUAL_CONTROL on full manual, then EMERGENCY_LANDING on a stale signal (strict `<` EMERGENCY_DELTA), then updates the resulting handler once. The final mode is `TickMode`. The calibration ramp, zero-throttle and throttles follow its update only when CALIBRATION is the handler updated. The ladder invariant is kept |
| `Flight.FlightComputer.SetState` | src/com/barbermot/pilot/flight/FlightComputer.java:386-388 | Sets only the mode, bypassing the graph |
| `Flight.FlightComputer.SetHoverConf` | src/com/barbermot/pilot/flight/FlightComputer.java:222-224 | Sets only the hover profile (`setHoverConfiguration`, lines 242-244, does the same) |
| `Flight.FlightComputer.SetLandingConf` | src/com/barbermot/pilot/flight/FlightComputer.java:230-232 | Sets only the landing profile (`setLandingConfiguration`, lines 246-248, does the same) |
| `Flight.FlightComputer.SetOrientationConf` | src/com/barbermot/pilot/flight/FlightComputer.java:238-240 | Sets only the orientation profile (`setStabilizerConfiguration`, lines 250-252, does the same) |
| `Flight.FlightComputer.SetMinThrottle` | src/com/barbermot/pilot/flight/FlightComputer.java:254-256 | Sets only `minThrottle` |
| `Flight.FlightComputer.SetMaxThrottle` | src/com/barbermot/pilot/flight/FlightComputer.java:258-260 | Sets only `maxThrottle` |
| `Flight.FlightComputer.SetMinTilt` | src/com/barbermot/pilot/flight/FlightComputer.java:334-336 | Sets only `minTilt` |
| `Flight.FlightComputer.SetMaxTilt` | src/com/barbermot/pilot/flight/FlightComputer.java:342-344 | Sets only `maxTilt` |
| `Flight.FlightComputer.SetLongitudinalDisplacement` | src/com/barbermot/pilot/flight/FlightComputer.java:266-268 | Sets only `longitudinalDisplacement` |
| `Flight.FlightComputer.SetLateralDisplacement` | src/com/barbermot/pilot/flight/FlightComputer.java:274-276 | Sets only `lateralDisplacement` |
| `Flight.FlightComputer.SetUfo` | src/com/barbermot/pilot/flight/FlightComputer.java:282-284 | Sets only the craft reference |
| `Flight.FlightComputer.SetAutoThrottle` | src/com/barbermot/pilot/flight/FlightComputer.java:290-292 | Sets only the throttle controller reference |
| `Flight.FlightComputer.SetAutoElevator` | src/com/barbermot/pilot/flight/FlightComputer.java:298-300 | Sets only the elevator controller reference |
| `Flight.FlightComputer.SetAutoAileron` | src/com/barbermot/pilot/flight/FlightComputer.java:306-308 | Sets only the aileron controller reference |
| `Flight.FlightComputer.SetAutoRudder` | src/com/barbermot/pilot/flight/FlightComputer.java:314-316 | Sets only the rudder controller reference |
| `Flight.FlightComputer.SetLastTimeOrientationSignal` | src/com/barbermot/pilot/flight/FlightComputer.java:354-356 | Sets only `lastTimeOrientationSignal` |
| `Flight.FlightComputer.SetLastTimeHeightSignal` | src/com/barbermot/pilot/flight/FlightComputer.java:362-364 | Sets only `lastTimeHeightSignal` |
| `Flight.FlightComputer.SetLastTimeGpsHeight` | src/com/barbermot/pilot/flight/FlightComputer.java:458-460 | Sets only `lastTimeGpsHeight` |
| `Flight.FlightComputer.SetHeight` | src/com/barbermot/pilot/flight/FlightComputer.java:394-396 | Sets only `height` |
| `Flight.FlightComputer.SetHeading` | src/com/barbermot/pilot/flight/FlightComputer.java:402-404 | Sets only `heading` |
| `Flight.FlightComputer.SetTime` | src/com/barbermot/pilot/flight/FlightComputer.java:410-412 | Sets only `time` |
| `Flight.FlightComputer.SetCurrentThrottle` | src/com/barbermot/pilot/flight/FlightComputer.java:418-420 | Sets only `currentThrottle` |
| `Flight.FlightComputer.SetCurrentElevator` | src/com/barbermot/pilot/flight/FlightComputer.java:426-428 | Sets only `currentElevator` |
| `Flight.FlightComputer.SetCurrentAileron` | src/com/barbermot/pilot/flight/FlightComputer.java:434-436 | Sets only `currentAileron` |
| `Flight.FlightComputer.SetCurrentRudder` | src/com/barbermot/pilot/flight/FlightComputer.java:442-444 | Sets only `currentRudder` |
| `Flight.FlightComputer.SetGpsHeight` | src/com/barbermot/pilot/flight/FlightComputer.java:446-448 | Sets only `gpsHeight` |
| `Flight.FlightComputer.SetZeroHeight` | src/com/barbermot/pilot/flight/FlightComputer.java:466-468 | Sets only `zeroHeight` |
| `Flight.FlightComputer.SetZeroGpsHeight` | src/com/barbermot/pilot/flight/FlightComputer.java:474-476 | Sets only `zeroGpsHeight` |
| `Flight.FlightComputer.SetGoalHeight` | src/com/barbermot/pilot/flight/FlightComputer.java:478-480 | Sets only `goalHeight` |
| `Flight.FlightComputer.SetZeroThrottle` | src/com/barbermot/pilot/flight/state/CalibrationState.java:37-38 | Sets only the zero-throttle baseline |
| `Ultrasound.Distance` | src/com/barbermot/pilot/UltrasoundSignal.java:43 | `microseconds / 29 / 2` is the truncated distance. For a nonnegative echo, 58·cm ≤ us < 58·(cm + 1). For a negative echo, the mirror image |
| `Ultrasound.Convert` | src/com/barbermot/pilot/UltrasoundSignal.java:38-45 | A reading is returned exactly when the distance is at most MAX_RELIABLE = 367, and it is that distance |
| `Ultrasound.DistanceIsQuot58` | src/com/barbermot/pilot/UltrasoundSignal.java:43 | The two truncating divisions equal one truncating division by 58 |
| `Ultrasound.ReliableIff` | src/com/barbermot/pilot/UltrasoundSignal.java:43-44 | A nonnegative echo gives a reading exactly when it is at most 21343 us |
| `Ultrasound.Monotone` | src/com/barbermot/pilot/UltrasoundSignal.java:43 | For nonnegative echoes, the distance never decreases as the echo time grows |
| `Ultrasound.ReadingRange` | src/com/barbermot/pilot/UltrasoundSignal.java:43-44 | Every reading of a nonnegative echo is in [0, 367] |
| `Ultrasound.NegativeAlwaysReading` | src/com/barbermot/pilot/UltrasoundSignal.java:43-44 | A negative echo always gives a reading, which is ≤ 0 and is 0 above -58 |
| `Serial.Sleeping` | src/com/barbermot/pilot/parser/SerialController.java:52-59 | A sleep window is open while a sleep has started and less than its length has passed |
| `Serial.Command` | src/com/barbermot/pilot/parser/SerialController.java:63-71 | The command of a stream: the characters before its first `;`, trimmed |
| `Serial.Classify` | src/com/barbermot/pilot/parser/SerialController.java:73-88 | A command is one of four kinds: ignored exactly when empty; a sleep exactly when it starts with z/Z and the rest parses as an int (that int); rejected exactly when it starts with z/Z and the rest does not parse; otherwise dispatched |
| `Serial.SerialController.constructor` | src/com/barbermot/pilot/parser/SerialController.java:24-32 | Stores the stream and `delim`. No sleep window is open |
| `Serial.SerialController.ReadCommand` | src/com/barbermot/pilot/parser/SerialController.java:63-69 | Consumes the stream up to and including the first `;` and returns the characters before it |
| `Serial.SerialController.ExecuteCommand` | src/com/barbermot/pilot/parser/SerialController.java:49-90 | While a sleep window is open it reads nothing and does nothing. Otherwise it closes an elapsed window and consumes one `;`-terminated command, trimmed. Empty: no output. A sleep command: echoed, and a new window opens at the second clock reading. Rejected: echoed, then `fail`. Anything else: echoed, then `doCmd` once |
| `Serial.SerialController.HandleCommand` | src/com/barbermot/pilot/parser/SerialController.java:73-88 | An empty command changes nothing. A non-empty one is echoed first. A sleep command then opens a window at `wake`. A rejected one goes to `fail`. Any other goes to `doCmd` once |
| `Serial.FramedCommand` | src/com/barbermot/pilot/parser/SerialController.java:63-71 | The text before the first `;` is exactly the command that is read, trimmed |
| `Serial.SleepRoundTrip` | src/com/barbermot/pilot/parser/SerialController.java:75-82 | `z` or `Z` followed by any int written in decimal and `;` opens a sleep window of exactly that many ms. A nonnegative int may be written with or without `+`, and a nonpositive one with `-` |
| `Serial.SpacedSleepRejected` | src/com/barbermot/pilot/parser/SerialController.java:77-85 | `"z 500"` is rejected, because the remainder after the letter is not trimmed |
| `Serial.BlankCommandIgnored` | src/com/barbermot/pilot/parser/SerialController.java:71-73 | A read is ignored exactly when everything before the `;` is blank |
| `Serial.EchoThenHandle` | src/com/barbermot/pilot/parser/SerialController.java:73-88 | A non-empty command is never ignored. It goes to `doCmd` exactly when it does not start with z/Z |

## Left out

- `FlightState.transition`, its default `guard` and `addTransition` are not part of
  this model. Their rule is the labelled assumption `FlightStates.Permits`:
  - the guards of every handler but CALIBRATION's (nine) are one parameter, and it does not
    depend on the computer's state;
  - a granted request is assumed to exit the requesting handler.
- The `enter`, `exit` and `update` of GROUND, HOVER, LANDING, EMERGENCY_LANDING,
  STABILIZED_HOVER, WAYPOINT_TRACK, MANUAL_CONTROL and FAILED are not part of this
  model. Their code is not among the modelled files, so the model gives them no effect.
- Flight.FlightComputer.Run: the final mode and the throttle outputs are exact only
  for the modelled handlers. The update of any other handler is taken to change
  nothing, which is weaker than the real tick.
- Flight.QuietTickKeepsMode: holds within this model only, for the same reason.
- `CalibrationState.ufo` only caches `computer.getUfo()` before each use. The model
  uses the computer's reference directly.
- `FlightBuilder`'s wiring of controllers into the HOVER, LANDING, STABILIZED_HOVER
  and WAYPOINT_HOLD handlers (FlightBuilder.java lines 307-341) is left out. Those
  handlers are not modelled, and the `WaypointHoldState` setters it calls do not
  exist in that class.
- Handlers are compared by their mode tag, not by object identity.
- Transition arguments are a height or nothing. The waypoint argument of
  WAYPOINT_HOLD is not modelled.
- The `FlightComputer` constructor takes the craft and the four controllers as
  arguments. In the source, FlightBuilder installs the craft with `setUfo` after
  construction (FlightBuilder.java line 251). No code of the modelled files calls
  `setAutoThrottle`, `setAutoElevator`, `setAutoAileron` or `setAutoRudder` on the
  computer: `buildControls` keeps the controllers in the builder and hands them to
  the handlers. In the source as written, the computer's controllers therefore stay
  null, and `forward`, `sideways` and `rotate` in STABILIZED_HOVER would throw a
  NullPointerException. The model assumes the controllers are installed. The mode
  starts as GROUND; in the source the current handler is null until the builder
  sets GROUND.
- `QuadCopter`, `AutoControl` and `RemoteControl` are not part of this model:
  - a craft is reduced to the last throttle it was sent;
  - a controller is reduced to its goal (no PID behaviour);
  - the control mask is reduced to whether it equals FULL_MANUAL.
- QuadCopter's speed constants are parameters (`CraftSpeeds`). The derived throttle,
  tilt and emergency-descent constants are stated over any such range.
- Floats are modelled as reals:
  - float rounding of constants such as 0.05f and the PID profiles is ignored;
  - `map` over an empty input range is the only non-finite case modelled.
- ControlMap.FloatMap: over a nonzero-width input range the real-valued result is taken as exact. Float rounding of the quotient and product, and overflow to +Infinity or -Infinity for huge operands, are not modelled.
- FlightComputer.java does not declare the `zeroThrottle` field or `setZeroThrottle` that CalibrationState.java line 37 calls. The model assumes a `zeroThrottle` field with Java's default 0 and a plain setter.
- `long` and `int` overflow of clock differences, and of the sleep time parsed from
  a command, are not modelled. Integers are unbounded, apart from parseInt's range
  check.
- `Integer.parseInt` also accepts non-ASCII Unicode digits. The model accepts only
  `0`-`9`.
- At end of stream `(char) in.read()` is never `;`, so `executeCommand` loops forever.
  The model instead requires a `;` in the input whenever the sleep gate lets a read
  happen.
- The `run` loop of `SerialController`, logging, the log printer, the executor,
  `shutdown`, the getters and `setRc`, `setPrinter` and `setExecutor` are left out.
  They are I/O or thread plumbing.
- `synchronized` and `volatile` are not modelled, because everything is sequential.
  `UltrasoundSignal.setupMeasurement` (pin toggling and sleeps) is left out.

## Findings

| source | as written | input that shows it | evidently intended | confidence | as-written member | corrected member |
|---|---|---|---|---|---|---|
| src/com/barbermot/pilot/flight/FlightComputer.java:100 | `maxSpeed = config.getMinSpeed()` makes the stick range empty, so `map` in `forward` and `sideways` divides by zero | `forward(50)` in STABILIZED_HOVER: (50 + 100) / (-100 + 100) gives a non-finite elevator goal | `maxSpeed = config.getMaxSpeed()`, so that full stick maps to full tilt | high; not executed | `Flight.ForwardAsWrittenNeverFinite` | `Flight.SpeedRange` |
