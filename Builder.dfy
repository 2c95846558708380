/**
 * FlightBuilder's two start-up steps that create the mode machine: one handler per
 * mode, registered under its own mode, the computer started in GROUND; then the
 * transition lists, filled by two escape loops and the per-mode edges.
 *
 * A handler is represented by its mode tag and the set of modes its transition list
 * names; the handlers' own behaviour lives in module Flight.
 */
module Builder {
  import opened FlightStates
  import Flight

  datatype Handler = Handler(kind: Mode, transitions: set<Mode>)

  /** The edges each per-mode block of buildTransitions adds. */
  function Wiring(m: Mode): set<Mode> {
    match m
    case Ground => {Hover, WaypointHold, Calibration}
    case Calibration => {EmergencyLanding, Landing}
    case Hover => {Hover, StabilizedHover, WaypointHold, EmergencyLanding, Landing}
    case EmergencyLanding => {Landing}
    case Landing => {Hover, WaypointHold, EmergencyLanding, Ground}
    case StabilizedHover => {Hover, WaypointHold, StabilizedHover, Landing, EmergencyLanding}
    case WaypointHold => {Hover, StabilizedHover, WaypointHold, EmergencyLanding, Landing}
    case ManualControl => {Hover, Landing}
    case WaypointTrack => {}
    case Failed => {}
  }

  /** The two escape loops and the per-mode blocks together give each mode its successors. */
  lemma SuccessorsAssembled(m: Mode)
    ensures Successors(m) ==
              (if m != Failed then {Failed} else {}) + (if m != ManualControl then {ManualControl} else {}) + Wiring(m)
  {
  }

  /** Relative to `before`, the handlers of the modes in `done` other than `target`
      list `target` in addition, and every other handler is as it was. */
  ghost predicate Escaped(before: map<Mode, Handler>, now: map<Mode, Handler>, target: Mode, done: set<Mode>) {
    forall m :: m in before && m in now &&
      now[m] == if m != target && m in done then before[m].(transitions := before[m].transitions + {target}) else before[m]
  }

  /** One iteration of an escape loop keeps `Escaped`, even if `state` was visited before. */
  lemma EscapeStep(before: map<Mode, Handler>, now: map<Mode, Handler>, target: Mode, done: set<Mode>, state: Mode)
    requires Escaped(before, now, target, done)
    ensures var h := now[state];
            Escaped(before, if state != target then now[state := h.(transitions := h.transitions + {target})] else now,
                    target, done + {state})
  {
  }

  /** `before` with the modes `tos` added to the transition list of the handler of `from`. */
  function Connect(before: map<Mode, Handler>, from: Mode, tos: set<Mode>): map<Mode, Handler>
    requires from in before
  {
    before[from := before[from].(transitions := before[from].transitions + tos)]
  }

  /** Two additions to the same handler are one addition of both. */
  lemma ConnectTwice(before: map<Mode, Handler>, from: Mode, a: set<Mode>, b: set<Mode>)
    requires from in before
    ensures Connect(Connect(before, from, a), from, b) == Connect(before, from, a + b)
  {
    assert before[from].transitions + a + b == before[from].transitions + (a + b);
  }

  /** The eight per-mode blocks, applied one after the other, give each mode its own block's edges. */
  lemma WiringComposed(s0: map<Mode, Handler>, s1: map<Mode, Handler>, s2: map<Mode, Handler>,
                       s3: map<Mode, Handler>, s4: map<Mode, Handler>, s5: map<Mode, Handler>,
                       s6: map<Mode, Handler>, s7: map<Mode, Handler>, s8: map<Mode, Handler>)
    requires forall m :: m in s0
    requires s1 == Connect(s0, Ground, Wiring(Ground))
    requires s2 == Connect(s1, Calibration, Wiring(Calibration))
    requires s3 == Connect(s2, Hover, Wiring(Hover))
    requires s4 == Connect(s3, EmergencyLanding, Wiring(EmergencyLanding))
    requires s5 == Connect(s4, Landing, Wiring(Landing))
    requires s6 == Connect(s5, StabilizedHover, Wiring(StabilizedHover))
    requires s7 == Connect(s6, WaypointHold, Wiring(WaypointHold))
    requires s8 == Connect(s7, ManualControl, Wiring(ManualControl))
    ensures forall m :: m in s8 && s8[m] == s0[m].(transitions := s0[m].transitions + Wiring(m))
  {
    forall m ensures m in s8 && s8[m] == s0[m].(transitions := s0[m].transitions + Wiring(m)) {
      match m
      case Ground =>
      case Calibration =>
      case Hover =>
      case EmergencyLanding =>
      case Landing =>
      case StabilizedHover =>
      case WaypointHold =>
      case ManualControl =>
      case WaypointTrack =>
        assert s0[m].transitions + Wiring(m) == s0[m].transitions;
      case Failed =>
        assert s0[m].transitions + Wiring(m) == s0[m].transitions;
    }
  }

  class FlightBuilder {
    const computer: Flight.FlightComputer
    var stateMap: map<Mode, Handler>

    constructor(computer: Flight.FlightComputer)
      ensures this.computer == computer && stateMap == map[]
    {
      this.computer := computer;
      stateMap := map[];
    }

    /** Every mode has a handler tagged with that mode and no transitions yet. */
    predicate Registered()
      reads this
    {
      forall m :: m in stateMap && stateMap[m] == Handler(m, {})
    }

    /** Every mode's handler is tagged with that mode and lists exactly its successors. */
    predicate Wired()
      reads this
    {
      forall m :: m in stateMap && stateMap[m] == Handler(m, Successors(m))
    }

    method Put(m: Mode)
      modifies this`stateMap
      ensures stateMap == old(stateMap)[m := Handler(m, {})]
    {
      stateMap := stateMap[m := Handler(m, {})];
    }

    /** buildFlightStates: one fresh handler per mode; GROUND becomes the current one. */
    method BuildFlightStates()
      modifies this`stateMap, computer`mode
      ensures Registered()
      ensures computer.mode == Ground
    {
      Put(EmergencyLanding);
      Put(Failed);
      Put(Ground);
      computer.SetState(Ground);
      Put(Calibration);
      Put(Hover);
      Put(Landing);
      Put(ManualControl);
      Put(StabilizedHover);
      Put(WaypointHold);
      Put(WaypointTrack);
      forall m ensures m in stateMap && stateMap[m] == Handler(m, {}) {
        AllModesListed(m);
      }
    }

    /** addTransition on the handler of `from`, naming the handler of `to`. */
    method AddTransition(from: Mode, to: Mode)
      requires from in stateMap && to in stateMap
      modifies this`stateMap
      ensures stateMap == Connect(old(stateMap), from, {to})
    {
      var h := stateMap[from];
      stateMap := stateMap[from := h.(transitions := h.transitions + {to})];
    }

    /** The edges every handler but `target`'s gets from one of the two escape loops. */
    method AddEscape(target: Mode)
      requires forall m :: m in stateMap
      modifies this`stateMap
      ensures forall m :: m in stateMap &&
                stateMap[m] == old(stateMap)[m].(transitions := old(stateMap)[m].transitions +
                                                   if m != target then {target} else {})
    {
      ghost var done: set<Mode> := {};
      var i := 0;
      while i < |AllModes|
        invariant 0 <= i <= |AllModes|
        invariant forall j :: 0 <= j < i ==> AllModes[j] in done
        invariant Escaped(old(stateMap), stateMap, target, done)
      {
        var state := AllModes[i];
        EscapeStep(old(stateMap), stateMap, target, done, state);
        if state != target {
          AddTransition(state, target);
        }
        done := done + {state};
        i := i + 1;
      }
      forall m ensures m in done {
        AllModesListed(m);
      }
    }

    method WireGround()
      requires forall m :: m in stateMap
      modifies this`stateMap
      ensures stateMap == Connect(old(stateMap), Ground, {Hover, WaypointHold, Calibration})
    {
      ghost var s := stateMap;
      AddTransition(Ground, Hover);
      AddTransition(Ground, WaypointHold);
      ConnectTwice(s, Ground, {Hover}, {WaypointHold});
      AddTransition(Ground, Calibration);
      ConnectTwice(s, Ground, {Hover} + {WaypointHold}, {Calibration});
      assert {Hover} + {WaypointHold} + {Calibration} == {Hover, WaypointHold, Calibration};
    }

    method WireCalibration()
      requires forall m :: m in stateMap
      modifies this`stateMap
      ensures stateMap == Connect(old(stateMap), Calibration, {EmergencyLanding, Landing})
    {
      ghost var s := stateMap;
      AddTransition(Calibration, EmergencyLanding);
      AddTransition(Calibration, Landing);
      ConnectTwice(s, Calibration, {EmergencyLanding}, {Landing});
      assert {EmergencyLanding} + {Landing} == {EmergencyLanding, Landing};
    }

    method WireHover()
      requires forall m :: m in stateMap
      modifies this`stateMap
      ensures stateMap == Connect(old(stateMap), Hover, {Hover, StabilizedHover, WaypointHold, EmergencyLanding, Landing})
    {
      ghost var s := stateMap;
      AddTransition(Hover, Hover);
      AddTransition(Hover, StabilizedHover);
      ConnectTwice(s, Hover, {Hover}, {StabilizedHover});
      AddTransition(Hover, WaypointHold);
      ConnectTwice(s, Hover, {Hover} + {StabilizedHover}, {WaypointHold});
      AddTransition(Hover, EmergencyLanding);
      ConnectTwice(s, Hover, {Hover} + {StabilizedHover} + {WaypointHold}, {EmergencyLanding});
      AddTransition(Hover, Landing);
      ConnectTwice(s, Hover, {Hover} + {StabilizedHover} + {WaypointHold} + {EmergencyLanding}, {Landing});
      assert {Hover} + {StabilizedHover} + {WaypointHold} + {EmergencyLanding} + {Landing} == {Hover, StabilizedHover, WaypointHold, EmergencyLanding, Landing};
    }

    method WireEmergencyLanding()
      requires forall m :: m in stateMap
      modifies this`stateMap
      ensures stateMap == Connect(old(stateMap), EmergencyLanding, {Landing})
    {
      AddTransition(EmergencyLanding, Landing);
    }

    method WireLanding()
      requires forall m :: m in stateMap
      modifies this`stateMap
      ensures stateMap == Connect(old(stateMap), Landing, {Hover, WaypointHold, EmergencyLanding, Ground})
    {
      ghost var s := stateMap;
      AddTransition(Landing, Hover);
      AddTransition(Landing, WaypointHold);
      ConnectTwice(s, Landing, {Hover}, {WaypointHold});
      AddTransition(Landing, EmergencyLanding);
      ConnectTwice(s, Landing, {Hover} + {WaypointHold}, {EmergencyLanding});
      AddTransition(Landing, Ground);
      ConnectTwice(s, Landing, {Hover} + {WaypointHold} + {EmergencyLanding}, {Ground});
      assert {Hover} + {WaypointHold} + {EmergencyLanding} + {Ground} == {Hover, WaypointHold, EmergencyLanding, Ground};
    }

    method WireStabilizedHover()
      requires forall m :: m in stateMap
      modifies this`stateMap
      ensures stateMap == Connect(old(stateMap), StabilizedHover, {Hover, WaypointHold, StabilizedHover, Landing, EmergencyLanding})
    {
      ghost var s := stateMap;
      AddTransition(StabilizedHover, Hover);
      AddTransition(StabilizedHover, WaypointHold);
      ConnectTwice(s, StabilizedHover, {Hover}, {WaypointHold});
      AddTransition(StabilizedHover, StabilizedHover);
      ConnectTwice(s, StabilizedHover, {Hover} + {WaypointHold}, {StabilizedHover});
      AddTransition(StabilizedHover, Landing);
      ConnectTwice(s, StabilizedHover, {Hover} + {WaypointHold} + {StabilizedHover}, {Landing});
      AddTransition(StabilizedHover, EmergencyLanding);
      ConnectTwice(s, StabilizedHover, {Hover} + {WaypointHold} + {StabilizedHover} + {Landing}, {EmergencyLanding});
      assert {Hover} + {WaypointHold} + {StabilizedHover} + {Landing} + {EmergencyLanding} == {Hover, WaypointHold, StabilizedHover, Landing, EmergencyLanding};
    }

    method WireWaypointHold()
      requires forall m :: m in stateMap
      modifies this`stateMap
      ensures stateMap == Connect(old(stateMap), WaypointHold, {Hover, StabilizedHover, WaypointHold, EmergencyLanding, Landing})
    {
      ghost var s := stateMap;
      AddTransition(WaypointHold, Hover);
      AddTransition(WaypointHold, StabilizedHover);
      ConnectTwice(s, WaypointHold, {Hover}, {StabilizedHover});
      AddTransition(WaypointHold, WaypointHold);
      ConnectTwice(s, WaypointHold, {Hover} + {StabilizedHover}, {WaypointHold});
      AddTransition(WaypointHold, EmergencyLanding);
      ConnectTwice(s, WaypointHold, {Hover} + {StabilizedHover} + {WaypointHold}, {EmergencyLanding});
      AddTransition(WaypointHold, Landing);
      ConnectTwice(s, WaypointHold, {Hover} + {StabilizedHover} + {WaypointHold} + {EmergencyLanding}, {Landing});
      assert {Hover} + {StabilizedHover} + {WaypointHold} + {EmergencyLanding} + {Landing} == {Hover, StabilizedHover, WaypointHold, EmergencyLanding, Landing};
    }

    method WireManualControl()
      requires forall m :: m in stateMap
      modifies this`stateMap
      ensures stateMap == Connect(old(stateMap), ManualControl, {Hover, Landing})
    {
      ghost var s := stateMap;
      AddTransition(ManualControl, Hover);
      AddTransition(ManualControl, Landing);
      ConnectTwice(s, ManualControl, {Hover}, {Landing});
      assert {Hover} + {Landing} == {Hover, Landing};
    }

    /** All the per-mode blocks of addTransition calls, in the order they appear. */
    method WireModes()
      requires forall m :: m in stateMap
      modifies this`stateMap
      ensures forall m :: m in stateMap &&
                stateMap[m] == old(stateMap)[m].(transitions := old(stateMap)[m].transitions + Wiring(m))
    {
      ghost var s0 := stateMap;
      WireGround();
      ghost var s1 := stateMap;
      WireCalibration();
      ghost var s2 := stateMap;
      WireHover();
      ghost var s3 := stateMap;
      WireEmergencyLanding();
      ghost var s4 := stateMap;
      WireLanding();
      ghost var s5 := stateMap;
      WireStabilizedHover();
      ghost var s6 := stateMap;
      WireWaypointHold();
      ghost var s7 := stateMap;
      WireManualControl();
      WiringComposed(s0, s1, s2, s3, s4, s5, s6, s7, stateMap);
    }

    /** buildTransitions: the result is exactly the graph `Successors`. */
    method BuildTransitions()
      requires Registered()
      modifies this`stateMap
      ensures Wired()
    {
      AddEscape(Failed);
      AddEscape(ManualControl);
      WireModes();
      forall m ensures m in stateMap && stateMap[m] == Handler(m, Successors(m)) {
        SuccessorsAssembled(m);
      }
    }
  }
}
