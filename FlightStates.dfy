/**
 * The flight-mode machine: the ten modes (FlightState.Type), the typed argument a
 * transition request carries, and the transition graph that FlightBuilder wires once
 * at start-up.
 *
 * `Successors` is the graph written out mode by mode; the builder in module Builder
 * constructs the same graph the way the source does (two escape loops, then the
 * per-mode edges) and is proved to arrive at this table.
 */
module FlightStates {

  datatype Mode =
    | Ground
    | Calibration
    | Hover
    | Landing
    | EmergencyLanding
    | StabilizedHover
    | WaypointHold
    | WaypointTrack
    | ManualControl
    | Failed

  /** Every mode, each once. */
  const AllModes: seq<Mode> :=
    [EmergencyLanding, Failed, Ground, Calibration, Hover, Landing,
     ManualControl, StabilizedHover, WaypointHold, WaypointTrack]

  /** The argument of a transition request (StateEvent): a height (a Float), or none
      (a Void event, or a Float event whose value is null). */
  datatype Arg = NoArg | Height(h: real)

  /** The guards of the mode handlers that are not part of this model, as one predicate
      over (target mode, argument). */
  type Guard = (Mode, Arg) -> bool

  /** The modes each mode may hand over to. */
  function Successors(m: Mode): set<Mode> {
    match m
    case Ground => {Failed, ManualControl, Hover, WaypointHold, Calibration}
    case Calibration => {Failed, ManualControl, EmergencyLanding, Landing}
    case Hover => {Failed, ManualControl, Hover, StabilizedHover, WaypointHold, EmergencyLanding, Landing}
    case EmergencyLanding => {Failed, ManualControl, Landing}
    case Landing => {Failed, ManualControl, Hover, WaypointHold, EmergencyLanding, Ground}
    case StabilizedHover => {Failed, ManualControl, Hover, WaypointHold, StabilizedHover, Landing, EmergencyLanding}
    case WaypointHold => {Failed, ManualControl, Hover, StabilizedHover, WaypointHold, EmergencyLanding, Landing}
    case WaypointTrack => {Failed, ManualControl}
    case ManualControl => {Failed, Hover, Landing}
    case Failed => {ManualControl}
  }

  /** The guard a target mode's handler applies: CalibrationState.guard always admits,
      every other handler's guard is the external predicate. */
  predicate Admits(guard: Guard, target: Mode, arg: Arg) {
    target == Calibration || guard(target, arg)
  }

  /** ASSUMED rule of FlightState.transition (that class is not part of this model):
      a request made to the handler of mode `from` goes through exactly when the target
      is among that handler's transitions and the target's guard admits the argument. */
  predicate Permits(from: Mode, target: Mode, arg: Arg, guard: Guard) {
    target in Successors(from) && Admits(guard, target, arg)
  }

  /** The mode after a request made to the handler of the current mode. */
  function Step(m: Mode, target: Mode, arg: Arg, guard: Guard): (r: Mode)
    ensures r == m || r == target
    ensures r == target <== Permits(m, target, arg, guard)
    ensures r != m ==> target in Successors(m)
    ensures !Permits(m, target, arg, guard) ==> r == m
  {
    if Permits(m, target, arg, guard) then target else m
  }

  // ---------------------------------------------------------------------------
  // Properties of the graph

  lemma AllModesListed(m: Mode)
    ensures m in AllModes
  {
  }

  /** Every mode but FAILED escapes to FAILED, and FAILED has no self-loop. */
  lemma EscapeToFailed(m: Mode)
    ensures Failed in Successors(m) <==> m != Failed
  {
  }

  /** Every mode but MANUAL_CONTROL escapes to MANUAL_CONTROL, which has no self-loop. */
  lemma EscapeToManual(m: Mode)
    ensures ManualControl in Successors(m) <==> m != ManualControl
  {
  }

  /** FAILED is not absorbing: its one way out is MANUAL_CONTROL. */
  lemma FailedLeadsOnlyToManual()
    ensures Successors(Failed) == {ManualControl}
    ensures Successors(ManualControl) == {Failed, Hover, Landing}
  {
  }

  lemma SelfLoops(m: Mode)
    ensures m in Successors(m) <==> m == Hover || m == StabilizedHover || m == WaypointHold
  {
  }

  /** GROUND is entered only from LANDING, CALIBRATION only from GROUND,
      and no edge enters WAYPOINT_TRACK. */
  lemma Entrances(m: Mode)
    ensures Ground in Successors(m) <==> m == Landing
    ensures Calibration in Successors(m) <==> m == Ground
    ensures WaypointTrack !in Successors(m)
    ensures Successors(WaypointTrack) == {Failed, ManualControl}
  {
  }

  /** A granted request to FAILED or MANUAL_CONTROL always lands there. */
  lemma EscapesAlwaysGranted(m: Mode, arg: Arg, guard: Guard)
    ensures m != Failed && guard(Failed, arg) ==> Step(m, Failed, arg, guard) == Failed
    ensures m != ManualControl && guard(ManualControl, arg) ==> Step(m, ManualControl, arg, guard) == ManualControl
  {
  }

  /** CALIBRATION's guard admits every request, so whether CALIBRATION is entered is
      decided by the graph alone: exactly when the request is made to GROUND's handler. */
  lemma CalibrationEntryOnlyFromGround(from: Mode, arg: Arg, guard: Guard)
    ensures Permits(from, Calibration, arg, guard) <==> from == Ground
    ensures Step(from, Calibration, arg, guard) == (if from == Ground then Calibration else from)
  {
  }

  // ---------------------------------------------------------------------------
  // Paths and reachability

  /** A walk along the transition graph. */
  ghost predicate IsPath(p: seq<Mode>) {
    |p| > 0 && forall i :: 0 <= i < |p| - 1 ==> p[i + 1] in Successors(p[i])
  }

  ghost predicate Reachable(a: Mode, b: Mode) {
    exists p :: IsPath(p) && p[0] == a && p[|p| - 1] == b
  }

  /** No walk that starts elsewhere ever visits WAYPOINT_TRACK. */
  lemma {:induction false} PathsAvoidWaypointTrack(p: seq<Mode>)
    requires IsPath(p) && p[0] != WaypointTrack
    ensures forall i :: 0 <= i < |p| ==> p[i] != WaypointTrack
  {
    if |p| > 1 {
      assert IsPath(p[1..]) by {
        forall i | 0 <= i < |p[1..]| - 1
          ensures p[1..][i + 1] in Successors(p[1..][i])
        {
          assert p[1..][i] == p[i + 1] && p[1..][i + 1] == p[i + 2];
        }
      }
      Entrances(p[0]);
      PathsAvoidWaypointTrack(p[1..]);
      forall i | 1 <= i < |p| ensures p[i] != WaypointTrack {
        assert p[i] == p[1..][i - 1];
      }
    }
  }

  lemma WaypointTrackUnreachable()
    ensures !Reachable(Ground, WaypointTrack)
  {
    if Reachable(Ground, WaypointTrack) {
      var p :| IsPath(p) && p[0] == Ground && p[|p| - 1] == WaypointTrack;
      PathsAvoidWaypointTrack(p);
    }
  }

  /** Reachability composes: a walk from a to b followed by one from b to c. */
  lemma {:induction false} ReachableTransitive(a: Mode, b: Mode, c: Mode)
    requires Reachable(a, b) && Reachable(b, c)
    ensures Reachable(a, c)
  {
    var p :| IsPath(p) && p[0] == a && p[|p| - 1] == b;
    var q :| IsPath(q) && q[0] == b && q[|q| - 1] == c;
    var r := p + q[1..];
    forall i | 0 <= i < |r| - 1 ensures r[i + 1] in Successors(r[i]) {
      if i < |p| - 1 {
        assert r[i] == p[i] && r[i + 1] == p[i + 1];
      } else {
        var j := i - (|p| - 1);
        assert r[i] == q[j] && r[i + 1] == q[j + 1];
      }
    }
    assert IsPath(r) && r[0] == a && r[|r| - 1] == c;
  }

  lemma EveryModeReachesGround(a: Mode)
    ensures Reachable(a, Ground)
  {
    var p: seq<Mode> :=
      if a == Ground then [Ground]
      else if a == Landing then [Landing, Ground]
      else if a == ManualControl then [ManualControl, Landing, Ground]
      else if a == Failed then [Failed, ManualControl, Landing, Ground]
      else [a, ManualControl, Landing, Ground];
    assert IsPath(p);
  }

  lemma GroundReachesAllButWaypointTrack(b: Mode)
    requires b != WaypointTrack
    ensures Reachable(Ground, b)
  {
    var p: seq<Mode> :=
      match b
      case Ground => [Ground]
      case Calibration => [Ground, Calibration]
      case Hover => [Ground, Hover]
      case Landing => [Ground, Hover, Landing]
      case EmergencyLanding => [Ground, Hover, EmergencyLanding]
      case StabilizedHover => [Ground, Hover, StabilizedHover]
      case WaypointHold => [Ground, WaypointHold]
      case ManualControl => [Ground, ManualControl]
      case Failed => [Ground, Failed];
    assert IsPath(p);
  }

  /** Every mode other than WAYPOINT_TRACK can be reached from every mode, FAILED
      included: FAILED -> MANUAL_CONTROL -> LANDING -> GROUND leads back to the start. */
  lemma RecoverableFromAnywhere(a: Mode, b: Mode)
    requires b != WaypointTrack
    ensures Reachable(a, b)
  {
    EveryModeReachesGround(a);
    GroundReachesAllButWaypointTrack(b);
    ReachableTransitive(a, Ground, b);
  }
}
