/**
 * FlightConfiguration: the constants every other component reads, the pin map
 * the constructor fills, the handful of settable connection fields, and the
 * lazily created single instance.
 */
module Configuration {
  import opened JavaLang

  // Pins of the IOIO board (the constructor copies these into the pin map).
  const UltraSoundPin: int := 4
  const AileronPinIn: int := 28
  const RudderPinIn: int := 6
  const ThrottlePinIn: int := 7
  const ElevatorPinIn: int := 27
  const GainPinIn: int := 22
  const AileronPinOut: int := 10
  const RudderPinOut: int := 11
  const ThrottlePinOut: int := 12
  const ElevatorPinOut: int := 13
  const ThrottleMonitorPin: int := 29
  const GainPinOut: int := 14
  const RxPin: int := 9
  const TxPin: int := 3

  // Periods, in milliseconds.
  const MinTimeStatusMessage: int := 5000
  const MinTimeUltraSound: int := 100
  const MinTimeOrientation: int := 150
  const MinTimeFlightComputer: int := 100
  const MinTimeRcEngagement: int := 250
  const MinTimeGps: int := 100
  const TimeBetweenConnectionRetries: int := 1000

  /** PID settings {kp, ki, kd, outMin, outMax} per profile. */
  const HoverConf: seq<real> := [57.0, 0.001, 35000.0, -600000.0, 4000000.0]
  const LandingConf: seq<real> := [0.0, 0.005, 60000.0, -1000000.0, 1000000.0]
  const OrientationConf: seq<real> := [50.0, 0.07, 350.0, -600.0, 400.0]
  const GpsConf: seq<real> := [5.7, 0.0007, 35000.0, -4000.0, 4000.0]

  const ThrottleOffHeight: real := 0.1
  const EmergencyDescentDelta: int := 20

  /** Staleness bounds: the height signal (ultrasound) and the GPS height. */
  const EmergencyDelta: int := 1000
  const EmergencyDeltaGps: int := 10000

  const NumThreads: int := 6

  /** Stick range of the motion commands. */
  const MinSpeed: real := -100.0
  const MaxSpeed: real := 100.0

  /** The single-precision value of Math.PI, exactly; a quarter of it is
      the single-precision value of Math.PI / 4. */
  const FloatPi: real := 3.1415927410125732421875
  const MinTiltAngle: real := -FloatPi / 4.0
  const MaxTiltAngle: real := FloatPi / 4.0

  const MaxHoverHeight: real := 3.0

  /** Calibration: height rise that ends it, throttle step, time between steps. */
  const CalibrationHeight: real := 0.05
  const ThrottleStepForCalibration: int := 5
  const CalibrationTimeStep: int := 500

  datatype PinType =
    | UltraSound | AileronIn | RudderIn | ThrottleIn | ElevatorIn | GainIn
    | AileronOut | RudderOut | ThrottleOut | ElevatorOut | GainOut
    | Rx | Tx | ThrottleMonitor

  datatype ConnectionType = Uart | Tcp

  /** The pin declared for each pin type. */
  function DeclaredPin(p: PinType): int {
    match p
    case UltraSound => UltraSoundPin
    case AileronIn => AileronPinIn
    case RudderIn => RudderPinIn
    case ThrottleIn => ThrottlePinIn
    case ElevatorIn => ElevatorPinIn
    case GainIn => GainPinIn
    case AileronOut => AileronPinOut
    case RudderOut => RudderPinOut
    case ThrottleOut => ThrottlePinOut
    case ElevatorOut => ElevatorPinOut
    case GainOut => GainPinOut
    case Rx => RxPin
    case Tx => TxPin
    case ThrottleMonitor => ThrottleMonitorPin
  }

  /** No two pin types share a pin. */
  lemma PinsDistinct(p: PinType, q: PinType)
    requires p != q
    ensures DeclaredPin(p) != DeclaredPin(q)
  {
  }

  /** The static speed constants of QuadCopter (that class is not part of this model),
      from which the throttle and tilt envelopes are derived. */
  datatype CraftSpeeds = CraftSpeeds(minSpeed: int, maxSpeed: int, stopSpeed: int)

  /** Initial throttle envelope: a third of the way up from the minimum speed,
      an eighth of the way down from the maximum, in Java int arithmetic. */
  function MinThrottle(c: CraftSpeeds): (r: int)
    requires c.minSpeed < c.maxSpeed
    ensures 3 * (r - c.minSpeed) <= c.maxSpeed - c.minSpeed < 3 * (r - c.minSpeed + 1)
  {
    c.minSpeed + Quot(c.maxSpeed - c.minSpeed, 3)
  }

  function MaxThrottle(c: CraftSpeeds): (r: int)
    requires c.minSpeed < c.maxSpeed
    ensures 8 * (c.maxSpeed - r) <= c.maxSpeed - c.minSpeed < 8 * (c.maxSpeed - r + 1)
  {
    c.maxSpeed - Quot(c.maxSpeed - c.minSpeed, 8)
  }

  /** Whatever the craft's speed range, the initial throttle envelope is non-empty
      and lies inside that range. */
  lemma ThrottleEnvelope(c: CraftSpeeds)
    requires c.minSpeed < c.maxSpeed
    ensures c.minSpeed <= MinThrottle(c) < MaxThrottle(c) <= c.maxSpeed
  {
    var d := c.maxSpeed - c.minSpeed;
    var a, b := Quot(d, 3), Quot(d, 8);
    assert a * 3 <= d && b * 8 <= d;
  }

  /** Tilt envelope: half of each speed bound, truncated toward zero. */
  function MinTilt(c: CraftSpeeds): (r: int)
    ensures c.minSpeed >= 0 ==> 0 <= c.minSpeed - 2 * r <= 1
    ensures c.minSpeed < 0 ==> -1 <= c.minSpeed - 2 * r <= 0
  {
    Quot(c.minSpeed, 2)
  }

  function MaxTilt(c: CraftSpeeds): (r: int)
    ensures c.maxSpeed >= 0 ==> 0 <= c.maxSpeed - 2 * r <= 1
    ensures c.maxSpeed < 0 ==> -1 <= c.maxSpeed - 2 * r <= 0
  {
    Quot(c.maxSpeed, 2)
  }

  /** Throttle held when the height is unknown: a twentieth of the range below stop. */
  function EmergencyDescent(c: CraftSpeeds): (r: int)
    requires c.minSpeed < c.maxSpeed
    ensures 20 * (c.stopSpeed - r) <= c.maxSpeed - c.minSpeed < 20 * (c.stopSpeed - r + 1)
  {
    c.stopSpeed - Quot(c.maxSpeed - c.minSpeed, 20)
  }

  class FlightConfiguration {
    const craft: CraftSpeeds
    var pinMap: map<PinType, int>
    var isSimulation: bool
    var connectionType: ConnectionType
    var serialUrl: Option<string>
    var serialPort: int
    var remoteControlPort: int
    var remoteControlType: ConnectionType
    var defaultGain: int

    /** Fills the pin map, one entry per pin type, each the declared pin. */
    constructor(craft: CraftSpeeds)
      ensures this.craft == craft
      ensures forall p :: p in pinMap && pinMap[p] == DeclaredPin(p)
      ensures !isSimulation && connectionType == Tcp && serialUrl == None
      ensures serialPort == 0 && remoteControlPort == 0
      ensures remoteControlType == Tcp && defaultGain == craft.stopSpeed
    {
      this.craft := craft;
      isSimulation := false;
      connectionType := Tcp;
      serialUrl := None;
      serialPort := 0;
      remoteControlPort := 0;
      remoteControlType := Tcp;
      defaultGain := craft.stopSpeed;
      var pins: map<PinType, int> := map[];
      pins := pins[UltraSound := UltraSoundPin];
      pins := pins[AileronIn := AileronPinIn];
      pins := pins[RudderIn := RudderPinIn];
      pins := pins[ThrottleIn := ThrottlePinIn];
      pins := pins[ElevatorIn := ElevatorPinIn];
      pins := pins[GainIn := GainPinIn];
      pins := pins[AileronOut := AileronPinOut];
      pins := pins[RudderOut := RudderPinOut];
      pins := pins[ThrottleOut := ThrottlePinOut];
      pins := pins[ElevatorOut := ElevatorPinOut];
      pins := pins[GainOut := GainPinOut];
      pins := pins[Rx := RxPin];
      pins := pins[Tx := TxPin];
      pins := pins[ThrottleMonitor := ThrottleMonitorPin];
      pinMap := pins;
      forall p ensures p in pins && pins[p] == DeclaredPin(p) {
        match p
        case UltraSound =>
        case AileronIn =>
        case RudderIn =>
        case ThrottleIn =>
        case ElevatorIn =>
        case GainIn =>
        case AileronOut =>
        case RudderOut =>
        case ThrottleOut =>
        case ElevatorOut =>
        case GainOut =>
        case Rx =>
        case Tx =>
        case ThrottleMonitor =>
      }
    }

    method SetSimulation(isSimulation: bool)
      modifies this`isSimulation
      ensures this.isSimulation == isSimulation
    {
      this.isSimulation := isSimulation;
    }

    method SetConnectionType(connectionType: ConnectionType)
      modifies this`connectionType
      ensures this.connectionType == connectionType
    {
      this.connectionType := connectionType;
    }

    method SetSerialUrl(serialUrl: Option<string>)
      modifies this`serialUrl
      ensures this.serialUrl == serialUrl
    {
      this.serialUrl := serialUrl;
    }

    method SetSerialPort(serialPort: int)
      modifies this`serialPort
      ensures this.serialPort == serialPort
    {
      this.serialPort := serialPort;
    }

    method SetRemoteControlPort(port: int)
      modifies this`remoteControlPort
      ensures remoteControlPort == port
    {
      remoteControlPort := port;
    }

    method SetDefaultGain(gain: int)
      modifies this`defaultGain
      ensures defaultGain == gain
    {
      defaultGain := gain;
    }
  }

  /** The static field behind FlightConfiguration.get(): empty until the first call. */
  class ConfigurationHolder {
    var config: FlightConfiguration?

    constructor()
      ensures config == null
    {
      config := null;
    }

    /** The first call creates the configuration; every later call returns that one. */
    method Get(craft: CraftSpeeds) returns (c: FlightConfiguration)
      modifies this
      ensures config == c
      ensures old(config) != null ==> c == old(config)
      ensures old(config) == null ==>
                fresh(c) && c.craft == craft && forall p :: p in c.pinMap && c.pinMap[p] == DeclaredPin(p)
    {
      if config == null {
        config := new FlightConfiguration(craft);
      }
      c := config;
    }
  }
}
