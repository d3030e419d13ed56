/** The data the channel-coupling layer works on: the coupling mode, the
    physical channel records, the temperature-sensor protection entries and
    a log of the calls the layer makes into hardware drivers it cannot see. */
module CouplingTypes {

  /** The process-wide coupling mode (TYPE_NONE, TYPE_PARALLEL, TYPE_SERIES). */
  datatype Type = None | Parallel | Series

  /** One electrical quantity of a channel (voltage `u` or current `i`). */
  datatype Quantity = Quantity(
    setPoint: real,
    mon: real,
    monDac: real,
    min: real,
    max: real,
    def: real,
    limit: real,
    maxLimit: real)

  /** A channel's protection configuration: OVP {state, level, delay},
      OCP {state, delay}, OPP {state, level, delay}. */
  datatype ProtConf = ProtConf(
    uState: bool, uLevel: real, uDelay: real,
    iState: bool, iDelay: real,
    pState: bool, pLevel: real, pDelay: real)

  /** A physical channel. `rprog` and `lripple` are the CH_FEATURE_RPROG and
      CH_FEATURE_LRIPPLE feature bits, `ok` is the health check isOk(). */
  datatype Channel = Channel(
    u: Quantity,
    i: Quantity,
    prot: ProtConf,
    powerLimit: real,
    ptot: real,
    oppMinLevel: real,
    oppMaxLevel: real,
    oppDefaultLevel: real,
    rprog: bool,
    lripple: bool,
    ok: bool,
    outputEnabled: bool)
  {
    // The channel's own setters are plain field stores.
    function SetVoltage(x: real): Channel { this.(u := u.(setPoint := x)) }
    function SetVoltageLimit(x: real): Channel { this.(u := u.(limit := x)) }
    function SetCurrent(x: real): Channel { this.(i := i.(setPoint := x)) }
    function SetCurrentLimit(x: real): Channel { this.(i := i.(limit := x)) }
    function SetPowerLimit(x: real): Channel { this.(powerLimit := x) }
    function OutputEnable(enable: bool): Channel { this.(outputEnabled := enable) }
  }

  /** Over-temperature protection of one temperature sensor. */
  datatype OtpConf = OtpConf(state: bool, level: real, delay: real)

  /** Calls into collaborators whose effect lies outside this layer.
      Channels are named by their 0-based position, sensors by their index. */
  datatype Event =
    | RemoteProgrammingEnable(ch: nat, enable: bool)
    | LowRippleEnable(ch: nat, enable: bool)
    | LowRippleAutoEnable(ch: nat, enable: bool)
    | ClearProtection(ch: nat)
    | DisableProtection(ch: nat)
    | ClearOtpProtection(sensor: nat)
    | SwitchChannelCoupling(mode: Type)

  /** Everything the layer reads or writes. Channel `k` of `chans` is the
      channel whose 1-based `index` is `k + 1`; its temperature sensor is
      `ch1 + k`, so the coupled pair owns sensors CH1 = `ch1` and
      CH2 = `ch1 + 1`. */
  datatype System = System(
    mode: Type,
    chans: seq<Channel>,
    sensors: seq<OtpConf>,
    ch1: nat,
    events: seq<Event>)

  function Min(a: real, b: real): real { if a < b then a else b }
  function Max(a: real, b: real): real { if a < b then b else a }

  /** Shape facts the layer relies on: a coupled mode implies at least two
      channels, and sensors CH1, CH2 and every channel's sensor exist. */
  predicate WellFormed(s: System)
  {
    && (s.mode != None ==> |s.chans| >= 2)
    && s.ch1 + 2 <= |s.sensors|
    && s.ch1 + |s.chans| <= |s.sensors|
  }

  /** While coupled, the two physical channels carry one protection
      configuration and their two sensors one OTP configuration. */
  predicate PairSymmetric(s: System)
    requires WellFormed(s)
  {
    s.mode != None ==>
      && s.chans[0].prot == s.chans[1].prot
      && s.sensors[s.ch1] == s.sensors[s.ch1 + 1]
  }

  /** The invariant every mutating operation keeps. */
  predicate Inv(s: System)
  {
    WellFormed(s) && PairSymmetric(s)
  }

  /** The channel addressed by a caller, `c`, is one of the channels. */
  predicate Addressable(s: System, c: nat)
  {
    WellFormed(s) && c < |s.chans|
  }

  /** The physical channels a channel-addressed write reaches: the pair
      0 and 1 when coupled, else only the addressed channel. */
  function Targets(m: Type, c: nat): set<nat>
  {
    if m != None then {0, 1} else {c}
  }

  /** The sensors a sensor-addressed OTP write reaches. */
  function SensorTargets(s: System, sensor: nat): set<nat>
  {
    if (sensor == s.ch1 || sensor == s.ch1 + 1) && s.mode != None
    then {s.ch1, s.ch1 + 1}
    else {sensor}
  }
}
