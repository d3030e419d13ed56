/** A session with the coupling layer: any sequence of calls into its
    entry points, applied one after the other to the system state. The
    properties here are the ones the layer keeps across calls, not within
    one: the coupled pair stays mirrored, the call log only grows, and only
    setType moves the mode. */
module Session {
  import opened CouplingTypes
  import Cascade
  import Protection
  import OutputControl
  import Transition

  /** An entry point that addresses a channel, with its other arguments. */
  datatype ChannelOp =
    | SetVoltageOp(x: real)
    | SetVoltageLimitOp(x: real)
    | SetCurrentOp(x: real)
    | SetCurrentLimitOp(x: real)
    | SetPowerLimitOp(x: real)
    | SetOvpParametersOp(state: bool, level: real, delay: real)
    | SetOvpStateOp(state: bool)
    | SetOvpLevelOp(level: real)
    | SetOvpDelayOp(delay: real)
    | SetOcpParametersOp(state: bool, delay: real)
    | SetOcpStateOp(state: bool)
    | SetOcpDelayOp(delay: real)
    | SetOppParametersOp(state: bool, level: real, delay: real)
    | SetOppStateOp(state: bool)
    | SetOppLevelOp(level: real)
    | SetOppDelayOp(delay: real)
    | OutputEnableOp(enable: bool)
    | LowRippleAutoEnableOp(enable: bool)
    | ClearProtectionOp
    | DisableProtectionOp
    | SetOtpParametersOp(otpState: int, level: real, delay: real)

  /** An entry point that addresses a temperature sensor. */
  datatype SensorOp =
    | ClearOtpProtectionOp
    | SetOtpStateOp(otpState: int)
    | SetOtpLevelOp(level: real)
    | SetOtpDelayOp(delay: real)

  /** One call into the layer's mutating entry points. lowRippleEnable
      carries the answers the channel drivers give. */
  datatype Call =
    | SetTypeCall(value: Type)
    | ChannelCall(c: nat, op: ChannelOp)
    | LowRippleEnableCall(ch: nat, enable: bool, answers: seq<bool>)
    | SensorCall(sensor: nat, sop: SensorOp)

  /** The call addresses an existing channel or sensor of a system with
      `nc` channels and `ns` sensors, and lowRippleEnable brings one
      driver answer per channel. */
  predicate Fits(call: Call, nc: nat, ns: nat)
  {
    match call
    case SetTypeCall(_) => true
    case ChannelCall(c, _) => c < nc
    case LowRippleEnableCall(c, _, answers) => c < nc && |answers| == nc
    case SensorCall(sensor, _) => sensor < ns
  }

  function ApplyChannel(s: System, c: nat, op: ChannelOp): (t: System)
    requires Addressable(s, c)
    ensures Addressable(t, c) && t.ch1 == s.ch1 && t.mode == s.mode
    ensures |t.chans| == |s.chans| && |t.sensors| == |s.sensors|
  {
    match op
    case SetVoltageOp(x) => Cascade.SetVoltage(s, c, x)
    case SetVoltageLimitOp(x) => Cascade.SetVoltageLimit(s, c, x)
    case SetCurrentOp(x) => Cascade.SetCurrent(s, c, x)
    case SetCurrentLimitOp(x) => Cascade.SetCurrentLimit(s, c, x)
    case SetPowerLimitOp(x) => Cascade.SetPowerLimit(s, c, x)
    case SetOvpParametersOp(state, level, delay) => Protection.SetOvpParameters(s, c, state, level, delay)
    case SetOvpStateOp(state) => Protection.SetOvpState(s, c, state)
    case SetOvpLevelOp(level) => Protection.SetOvpLevel(s, c, level)
    case SetOvpDelayOp(delay) => Protection.SetOvpDelay(s, c, delay)
    case SetOcpParametersOp(state, delay) => Protection.SetOcpParameters(s, c, state, delay)
    case SetOcpStateOp(state) => Protection.SetOcpState(s, c, state)
    case SetOcpDelayOp(delay) => Protection.SetOcpDelay(s, c, delay)
    case SetOppParametersOp(state, level, delay) => Protection.SetOppParameters(s, c, state, level, delay)
    case SetOppStateOp(state) => Protection.SetOppState(s, c, state)
    case SetOppLevelOp(level) => Protection.SetOppLevel(s, c, level)
    case SetOppDelayOp(delay) => Protection.SetOppDelay(s, c, delay)
    case OutputEnableOp(enable) => OutputControl.OutputEnable(s, c, enable)
    case LowRippleAutoEnableOp(enable) => OutputControl.LowRippleAutoEnable(s, c, enable)
    case ClearProtectionOp => Protection.ClearProtection(s, c)
    case DisableProtectionOp => Protection.DisableProtection(s, c)
    case SetOtpParametersOp(state, level, delay) => Protection.SetOtpParameters(s, c, state, level, delay)
  }

  function ApplySensor(s: System, sensor: nat, op: SensorOp): (t: System)
    requires WellFormed(s) && sensor < |s.sensors|
    ensures WellFormed(t) && t.ch1 == s.ch1 && t.mode == s.mode
    ensures |t.chans| == |s.chans| && |t.sensors| == |s.sensors|
  {
    match op
    case ClearOtpProtectionOp => Protection.ClearOtpProtection(s, sensor)
    case SetOtpStateOp(state) => Protection.SetOtpState(s, sensor, state)
    case SetOtpLevelOp(level) => Protection.SetOtpLevel(s, sensor, level)
    case SetOtpDelayOp(delay) => Protection.SetOtpDelay(s, sensor, delay)
  }

  /** The state after one call. What a call returns to its caller
      (setType's flag, lowRippleEnable's answer) is dropped. */
  function Apply(s: System, call: Call): (t: System)
    requires WellFormed(s) && Fits(call, |s.chans|, |s.sensors|)
    ensures WellFormed(t) && t.ch1 == s.ch1
    ensures |t.chans| == |s.chans| && |t.sensors| == |s.sensors|
    ensures !call.SetTypeCall? ==> t.mode == s.mode
  {
    match call
    case SetTypeCall(value) => Transition.SetType(s, value).0
    case ChannelCall(c, op) => ApplyChannel(s, c, op)
    case LowRippleEnableCall(c, enable, answers) => OutputControl.LowRippleEnable(s, c, enable, answers).0
    case SensorCall(sensor, op) => ApplySensor(s, sensor, op)
  }

  /** Every call fits a system with `nc` channels and `ns` sensors. */
  predicate AllFit(calls: seq<Call>, nc: nat, ns: nat)
  {
    forall i | 0 <= i < |calls| :: Fits(calls[i], nc, ns)
  }

  /** The state after the calls, in order. */
  function Run(s: System, calls: seq<Call>): (t: System)
    requires WellFormed(s) && AllFit(calls, |s.chans|, |s.sensors|)
    ensures WellFormed(t) && t.ch1 == s.ch1
    ensures |t.chans| == |s.chans| && |t.sensors| == |s.sensors|
    decreases |calls|
  {
    if calls == [] then s else Run(Apply(s, calls[0]), calls[1..])
  }

  /** Every channel-addressed call keeps the invariant and only appends to
      the call log. */
  lemma ApplyChannelFrame(s: System, c: nat, op: ChannelOp)
    requires Addressable(s, c)
    ensures s.events <= ApplyChannel(s, c, op).events
    ensures Inv(s) ==> Inv(ApplyChannel(s, c, op))
  {
  }

  /** Every sensor-addressed call keeps the invariant and only appends to
      the call log. */
  lemma ApplySensorFrame(s: System, sensor: nat, op: SensorOp)
    requires WellFormed(s) && sensor < |s.sensors|
    ensures s.events <= ApplySensor(s, sensor, op).events
    ensures Inv(s) ==> Inv(ApplySensor(s, sensor, op))
  {
  }

  /** Every single call keeps the coupled-pair invariant and only appends
      to the call log. */
  lemma ApplyFrame(s: System, call: Call)
    requires WellFormed(s) && Fits(call, |s.chans|, |s.sensors|)
    ensures s.events <= Apply(s, call).events
    ensures Inv(s) ==> Inv(Apply(s, call))
  {
    match call
    case SetTypeCall(value) =>
      if Inv(s) {
        Transition.SetTypeKeepsInv(s, value);
      }
    case ChannelCall(c, op) => ApplyChannelFrame(s, c, op);
    case LowRippleEnableCall(_, _, _) =>
    case SensorCall(sensor, op) => ApplySensorFrame(s, sensor, op);
  }

  /** Across any session, while the pair is coupled its two channels carry
      one protection configuration and CH1 and CH2 one OTP configuration. */
  lemma {:induction false} RunKeepsInv(s: System, calls: seq<Call>)
    requires Inv(s) && AllFit(calls, |s.chans|, |s.sensors|)
    ensures Inv(Run(s, calls))
    decreases |calls|
  {
    if calls != [] {
      ApplyFrame(s, calls[0]);
      RunKeepsInv(Apply(s, calls[0]), calls[1..]);
    }
  }

  /** The call log of a session only grows: what was logged before stays,
      in order, at its head. */
  lemma {:induction false} RunExtendsLog(s: System, calls: seq<Call>)
    requires WellFormed(s) && AllFit(calls, |s.chans|, |s.sensors|)
    ensures s.events <= Run(s, calls).events
    decreases |calls|
  {
    if calls != [] {
      ApplyFrame(s, calls[0]);
      RunExtendsLog(Apply(s, calls[0]), calls[1..]);
    }
  }

  /** Only setType moves the coupling mode: a session without it ends in
      the mode it started in. */
  lemma {:induction false} RunKeepsMode(s: System, calls: seq<Call>)
    requires WellFormed(s) && AllFit(calls, |s.chans|, |s.sensors|)
    requires forall i | 0 <= i < |calls| :: !calls[i].SetTypeCall?
    ensures Run(s, calls).mode == s.mode
    decreases |calls|
  {
    if calls != [] {
      RunKeepsMode(Apply(s, calls[0]), calls[1..]);
    }
  }
}
