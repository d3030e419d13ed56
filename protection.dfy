/** Protection cascade. While coupled, every OVP/OCP/OPP setter writes both
    physical channels whichever channel is addressed; levels are halved
    (the read side adds them up again), states and delays are written as
    given. Uncoupled, only the addressed channel is written, unhalved. OTP
    settings are keyed by sensor: a write to CH1 or CH2 while coupled goes
    to both, unhalved; any other write reaches only its sensor. */
module Protection {
  import opened CouplingTypes
  import opened Projection
  import opened Cascade

  function WithProt(ch: Channel, p: ProtConf): Channel { ch.(prot := p) }

  /** Only protection configurations change, and only on channels the mode
      lets the call reach. */
  ghost predicate ProtWrite(s: System, c: nat, t: System)
    requires Addressable(s, c)
  {
    && t.mode == s.mode && t.sensors == s.sensors && t.ch1 == s.ch1
    && t.events == s.events && |t.chans| == |s.chans|
    && (forall k: nat | k < |s.chans| && k !in Targets(s.mode, c) :: t.chans[k] == s.chans[k])
    && (forall k: nat | k < |s.chans| :: t.chans[k] == WithProt(s.chans[k], t.chans[k].prot))
  }

  /** The level a protection setter stores in each reached channel. */
  function StoredLevel(m: Type, level: real): real
  {
    if m != None then level / 2.0 else level
  }

  // ---- over-voltage protection ----

  function SetOvpParameters(s: System, c: nat, state: bool, level: real, delay: real): (t: System)
    requires Addressable(s, c)
    ensures Addressable(t, c) && ProtWrite(s, c, t)
    ensures forall k: nat | k < |s.chans| && k in Targets(s.mode, c) ::
      t.chans[k].prot == s.chans[k].prot.(uState := state, uLevel := StoredLevel(s.mode, level), uDelay := delay)
    ensures Inv(s) ==> Inv(t)
  {
    if s.mode != None then
      WritePair(s,
        WithProt(s.chans[0], s.chans[0].prot.(uState := state, uLevel := level / 2.0, uDelay := delay)),
        WithProt(s.chans[1], s.chans[1].prot.(uState := state, uLevel := level / 2.0, uDelay := delay)))
    else
      WriteOne(s, c, WithProt(s.chans[c], s.chans[c].prot.(uState := state, uLevel := level, uDelay := delay)))
  }

  function SetOvpState(s: System, c: nat, state: bool): (t: System)
    requires Addressable(s, c)
    ensures Addressable(t, c) && ProtWrite(s, c, t)
    ensures forall k: nat | k < |s.chans| && k in Targets(s.mode, c) ::
      t.chans[k].prot == s.chans[k].prot.(uState := state)
    ensures Inv(s) ==> Inv(t)
  {
    if s.mode != None then
      WritePair(s,
        WithProt(s.chans[0], s.chans[0].prot.(uState := state)),
        WithProt(s.chans[1], s.chans[1].prot.(uState := state)))
    else
      WriteOne(s, c, WithProt(s.chans[c], s.chans[c].prot.(uState := state)))
  }

  function SetOvpLevel(s: System, c: nat, level: real): (t: System)
    requires Addressable(s, c)
    ensures Addressable(t, c) && ProtWrite(s, c, t)
    ensures forall k: nat | k < |s.chans| && k in Targets(s.mode, c) ::
      t.chans[k].prot == s.chans[k].prot.(uLevel := StoredLevel(s.mode, level))
    ensures Inv(s) ==> Inv(t)
  {
    if s.mode != None then
      WritePair(s,
        WithProt(s.chans[0], s.chans[0].prot.(uLevel := level / 2.0)),
        WithProt(s.chans[1], s.chans[1].prot.(uLevel := level / 2.0)))
    else
      WriteOne(s, c, WithProt(s.chans[c], s.chans[c].prot.(uLevel := level)))
  }

  function SetOvpDelay(s: System, c: nat, delay: real): (t: System)
    requires Addressable(s, c)
    ensures Addressable(t, c) && ProtWrite(s, c, t)
    ensures forall k: nat | k < |s.chans| && k in Targets(s.mode, c) ::
      t.chans[k].prot == s.chans[k].prot.(uDelay := delay)
    ensures Inv(s) ==> Inv(t)
  {
    if s.mode != None then
      WritePair(s,
        WithProt(s.chans[0], s.chans[0].prot.(uDelay := delay)),
        WithProt(s.chans[1], s.chans[1].prot.(uDelay := delay)))
    else
      WriteOne(s, c, WithProt(s.chans[c], s.chans[c].prot.(uDelay := delay)))
  }

  // ---- over-current protection ----

  function SetOcpParameters(s: System, c: nat, state: bool, delay: real): (t: System)
    requires Addressable(s, c)
    ensures Addressable(t, c) && ProtWrite(s, c, t)
    ensures forall k: nat | k < |s.chans| && k in Targets(s.mode, c) ::
      t.chans[k].prot == s.chans[k].prot.(iState := state, iDelay := delay)
    ensures Inv(s) ==> Inv(t)
  {
    if s.mode != None then
      WritePair(s,
        WithProt(s.chans[0], s.chans[0].prot.(iState := state, iDelay := delay)),
        WithProt(s.chans[1], s.chans[1].prot.(iState := state, iDelay := delay)))
    else
      WriteOne(s, c, WithProt(s.chans[c], s.chans[c].prot.(iState := state, iDelay := delay)))
  }

  function SetOcpState(s: System, c: nat, state: bool): (t: System)
    requires Addressable(s, c)
    ensures Addressable(t, c) && ProtWrite(s, c, t)
    ensures forall k: nat | k < |s.chans| && k in Targets(s.mode, c) ::
      t.chans[k].prot == s.chans[k].prot.(iState := state)
    ensures Inv(s) ==> Inv(t)
  {
    if s.mode != None then
      WritePair(s,
        WithProt(s.chans[0], s.chans[0].prot.(iState := state)),
        WithProt(s.chans[1], s.chans[1].prot.(iState := state)))
    else
      WriteOne(s, c, WithProt(s.chans[c], s.chans[c].prot.(iState := state)))
  }

  function SetOcpDelay(s: System, c: nat, delay: real): (t: System)
    requires Addressable(s, c)
    ensures Addressable(t, c) && ProtWrite(s, c, t)
    ensures forall k: nat | k < |s.chans| && k in Targets(s.mode, c) ::
      t.chans[k].prot == s.chans[k].prot.(iDelay := delay)
    ensures Inv(s) ==> Inv(t)
  {
    if s.mode != None then
      WritePair(s,
        WithProt(s.chans[0], s.chans[0].prot.(iDelay := delay)),
        WithProt(s.chans[1], s.chans[1].prot.(iDelay := delay)))
    else
      WriteOne(s, c, WithProt(s.chans[c], s.chans[c].prot.(iDelay := delay)))
  }

  // ---- over-power protection ----

  function SetOppParameters(s: System, c: nat, state: bool, level: real, delay: real): (t: System)
    requires Addressable(s, c)
    ensures Addressable(t, c) && ProtWrite(s, c, t)
    ensures forall k: nat | k < |s.chans| && k in Targets(s.mode, c) ::
      t.chans[k].prot == s.chans[k].prot.(pState := state, pLevel := StoredLevel(s.mode, level), pDelay := delay)
    ensures Inv(s) ==> Inv(t)
  {
    if s.mode != None then
      WritePair(s,
        WithProt(s.chans[0], s.chans[0].prot.(pState := state, pLevel := level / 2.0, pDelay := delay)),
        WithProt(s.chans[1], s.chans[1].prot.(pState := state, pLevel := level / 2.0, pDelay := delay)))
    else
      WriteOne(s, c, WithProt(s.chans[c], s.chans[c].prot.(pState := state, pLevel := level, pDelay := delay)))
  }

  function SetOppState(s: System, c: nat, state: bool): (t: System)
    requires Addressable(s, c)
    ensures Addressable(t, c) && ProtWrite(s, c, t)
    ensures forall k: nat | k < |s.chans| && k in Targets(s.mode, c) ::
      t.chans[k].prot == s.chans[k].prot.(pState := state)
    ensures Inv(s) ==> Inv(t)
  {
    if s.mode != None then
      WritePair(s,
        WithProt(s.chans[0], s.chans[0].prot.(pState := state)),
        WithProt(s.chans[1], s.chans[1].prot.(pState := state)))
    else
      WriteOne(s, c, WithProt(s.chans[c], s.chans[c].prot.(pState := state)))
  }

  function SetOppLevel(s: System, c: nat, level: real): (t: System)
    requires Addressable(s, c)
    ensures Addressable(t, c) && ProtWrite(s, c, t)
    ensures forall k: nat | k < |s.chans| && k in Targets(s.mode, c) ::
      t.chans[k].prot == s.chans[k].prot.(pLevel := StoredLevel(s.mode, level))
    ensures Inv(s) ==> Inv(t)
  {
    if s.mode != None then
      WritePair(s,
        WithProt(s.chans[0], s.chans[0].prot.(pLevel := level / 2.0)),
        WithProt(s.chans[1], s.chans[1].prot.(pLevel := level / 2.0)))
    else
      WriteOne(s, c, WithProt(s.chans[c], s.chans[c].prot.(pLevel := level)))
  }

  function SetOppDelay(s: System, c: nat, delay: real): (t: System)
    requires Addressable(s, c)
    ensures Addressable(t, c) && ProtWrite(s, c, t)
    ensures forall k: nat | k < |s.chans| && k in Targets(s.mode, c) ::
      t.chans[k].prot == s.chans[k].prot.(pDelay := delay)
    ensures Inv(s) ==> Inv(t)
  {
    if s.mode != None then
      WritePair(s,
        WithProt(s.chans[0], s.chans[0].prot.(pDelay := delay)),
        WithProt(s.chans[1], s.chans[1].prot.(pDelay := delay)))
    else
      WriteOne(s, c, WithProt(s.chans[c], s.chans[c].prot.(pDelay := delay)))
  }

  // ---- what the channel protection setters promise ----

  /** Reading the OVP level back after setOvpLevel or setOvpParameters:
      in series getUProtectionLevel returns the level written, whichever
      channel is addressed; in parallel it returns half of it, since that
      getter only sums in series; uncoupled it returns the level on the
      addressed channel. */
  lemma OvpLevelReadBack(s: System, c: nat, state: bool, level: real, delay: real)
    requires Addressable(s, c)
    ensures s.mode == Series ==> forall d: nat | d < |s.chans| ::
      && GetUProtectionLevel(SetOvpLevel(s, c, level), d) == level
      && GetUProtectionLevel(SetOvpParameters(s, c, state, level, delay), d) == level
    ensures s.mode == Parallel ==> forall d: nat | d < 2 ::
      && GetUProtectionLevel(SetOvpLevel(s, c, level), d) == level / 2.0
      && GetUProtectionLevel(SetOvpParameters(s, c, state, level, delay), d) == level / 2.0
    ensures s.mode == None ==>
      && GetUProtectionLevel(SetOvpLevel(s, c, level), c) == level
      && GetUProtectionLevel(SetOvpParameters(s, c, state, level, delay), c) == level
  {
  }

  /** getPowerProtectionLevel reads back the OPP level written by
      setOppLevel or setOppParameters in every mode: whichever channel is
      addressed when coupled, on the addressed channel otherwise. */
  lemma OppLevelReadBack(s: System, c: nat, state: bool, level: real, delay: real)
    requires Addressable(s, c)
    ensures s.mode != None ==> forall d: nat | d < |s.chans| ::
      && GetPowerProtectionLevel(SetOppLevel(s, c, level), d) == level
      && GetPowerProtectionLevel(SetOppParameters(s, c, state, level, delay), d) == level
    ensures s.mode == None ==>
      && GetPowerProtectionLevel(SetOppLevel(s, c, level), c) == level
      && GetPowerProtectionLevel(SetOppParameters(s, c, state, level, delay), c) == level
  {
  }

  // ---- over-temperature protection ----

  /** Only sensor entries change, and only those in `reach`. */
  ghost predicate SensorWrite(s: System, reach: set<nat>, t: System)
  {
    && t.mode == s.mode && t.chans == s.chans && t.ch1 == s.ch1
    && t.events == s.events && |t.sensors| == |s.sensors|
    && (forall j: nat | j < |s.sensors| && j !in reach :: t.sensors[j] == s.sensors[j])
  }

  /** setOtpParameters is keyed by channel: coupled it writes both CH1 and
      CH2; uncoupled it writes the addressed channel's sensor. A non-zero
      `state` enables the protection. */
  function SetOtpParameters(s: System, c: nat, state: int, level: real, delay: real): (t: System)
    requires Addressable(s, c)
    ensures Addressable(t, c)
    ensures SensorWrite(s, if s.mode != None then {s.ch1, s.ch1 + 1} else {s.ch1 + c}, t)
    ensures Inv(s) ==> Inv(t)
  {
    var conf := OtpConf(state != 0, level, delay);
    if s.mode != None then
      s.(sensors := s.sensors[s.ch1 := conf][s.ch1 + 1 := conf])
    else
      s.(sensors := s.sensors[s.ch1 + c := conf])
  }

  function SetOtpState(s: System, sensor: nat, state: int): (t: System)
    requires WellFormed(s) && sensor < |s.sensors|
    ensures WellFormed(t) && SensorWrite(s, SensorTargets(s, sensor), t)
    ensures Inv(s) ==> Inv(t)
  {
    if (sensor == s.ch1 || sensor == s.ch1 + 1) && s.mode != None then
      s.(sensors := s.sensors[s.ch1 := s.sensors[s.ch1].(state := state != 0)]
                             [s.ch1 + 1 := s.sensors[s.ch1 + 1].(state := state != 0)])
    else
      s.(sensors := s.sensors[sensor := s.sensors[sensor].(state := state != 0)])
  }

  function SetOtpLevel(s: System, sensor: nat, level: real): (t: System)
    requires WellFormed(s) && sensor < |s.sensors|
    ensures WellFormed(t) && SensorWrite(s, SensorTargets(s, sensor), t)
    ensures Inv(s) ==> Inv(t)
  {
    if (sensor == s.ch1 || sensor == s.ch1 + 1) && s.mode != None then
      s.(sensors := s.sensors[s.ch1 := s.sensors[s.ch1].(level := level)]
                             [s.ch1 + 1 := s.sensors[s.ch1 + 1].(level := level)])
    else
      s.(sensors := s.sensors[sensor := s.sensors[sensor].(level := level)])
  }

  function SetOtpDelay(s: System, sensor: nat, delay: real): (t: System)
    requires WellFormed(s) && sensor < |s.sensors|
    ensures WellFormed(t) && SensorWrite(s, SensorTargets(s, sensor), t)
    ensures Inv(s) ==> Inv(t)
  {
    if (sensor == s.ch1 || sensor == s.ch1 + 1) && s.mode != None then
      s.(sensors := s.sensors[s.ch1 := s.sensors[s.ch1].(delay := delay)]
                             [s.ch1 + 1 := s.sensors[s.ch1 + 1].(delay := delay)])
    else
      s.(sensors := s.sensors[sensor := s.sensors[sensor].(delay := delay)])
  }

  /** The sensor-keyed OTP setters store their value unhalved in every
      reached sensor (both pair sensors when a pair sensor is addressed
      while coupled) and leave the entry's other fields alone. */
  lemma OtpCascade(s: System, sensor: nat, state: int, level: real, delay: real)
    requires WellFormed(s) && sensor < |s.sensors|
    ensures forall j: nat | j < |s.sensors| && j in SensorTargets(s, sensor) ::
      var o := s.sensors[j];
      && SetOtpState(s, sensor, state).sensors[j] == o.(state := state != 0)
      && SetOtpLevel(s, sensor, level).sensors[j] == o.(level := level)
      && SetOtpDelay(s, sensor, delay).sensors[j] == o.(delay := delay)
    ensures s.mode != None && (sensor == s.ch1 || sensor == s.ch1 + 1) ==>
      SensorTargets(s, sensor) == {s.ch1, s.ch1 + 1}
    ensures s.mode == None || (sensor != s.ch1 && sensor != s.ch1 + 1) ==>
      SensorTargets(s, sensor) == {sensor}
  {
  }

  /** setOtpParameters writes all three OTP fields, unhalved, into both pair
      sensors when coupled and into the addressed channel's sensor
      otherwise. */
  lemma OtpParametersCascade(s: System, c: nat, state: int, level: real, delay: real)
    requires Addressable(s, c)
    ensures var t := SetOtpParameters(s, c, state, level, delay);
      && (s.mode != None ==>
            t.sensors[s.ch1] == t.sensors[s.ch1 + 1] == OtpConf(state != 0, level, delay))
      && (s.mode == None ==> t.sensors[s.ch1 + c] == OtpConf(state != 0, level, delay))
  {
  }

  // ---- clear and disable ----

  /** `t` is `s` with events appended after the existing ones. */
  ghost predicate Appends(s: System, t: System)
  {
    t == s.(events := t.events) && |s.events| <= |t.events| && t.events[..|s.events|] == s.events
  }

  function ClearProtection(s: System, c: nat): (t: System)
    requires Addressable(s, c)
    ensures Appends(s, t)
    ensures forall e :: e in t.events[|s.events|..] <==>
      e.ClearProtection? && e.ch in Targets(s.mode, c)
  {
    if s.mode != None then
      s.(events := s.events + [Event.ClearProtection(0), Event.ClearProtection(1)])
    else
      s.(events := s.events + [Event.ClearProtection(c)])
  }

  function DisableProtection(s: System, c: nat): (t: System)
    requires Addressable(s, c)
    ensures Appends(s, t)
    ensures forall e :: e in t.events[|s.events|..] <==>
      e.DisableProtection? && e.ch in Targets(s.mode, c)
  {
    if s.mode != None then
      s.(events := s.events + [Event.DisableProtection(0), Event.DisableProtection(1)])
    else
      s.(events := s.events + [Event.DisableProtection(c)])
  }

  function ClearOtpProtection(s: System, sensor: nat): (t: System)
    requires WellFormed(s) && sensor < |s.sensors|
    ensures Appends(s, t)
    ensures forall e :: e in t.events[|s.events|..] <==>
      e.ClearOtpProtection? && e.sensor in SensorTargets(s, sensor)
  {
    if (sensor == s.ch1 || sensor == s.ch1 + 1) && s.mode != None then
      s.(events := s.events + [Event.ClearOtpProtection(s.ch1), Event.ClearOtpProtection(s.ch1 + 1)])
    else
      s.(events := s.events + [Event.ClearOtpProtection(sensor)])
  }
}
