/** The coupling layer as the firmware runs it: one object owning the
    process-wide mode, updating the channel records and the sensor entries
    in place. Every method is proved to leave exactly the state the
    corresponding specification function computes, and to keep the
    coupled-pair invariant. The getters are the functions of Projection
    applied to Abstract(). */
module ChannelCoupling {
  import opened CouplingTypes
  import opened Projection
  import Cascade
  import Protection
  import OutputControl
  import Transition

  class Coupling {
    /** g_channelCoupling */
    var mode: Type
    /** Channel::get(k) is channels[k]; its 1-based index is k + 1. */
    const channels: array<Channel>
    /** temperature::sensors; CH1 is ch1 and CH2 is ch1 + 1. */
    const sensors: array<OtpConf>
    const ch1: nat
    /** Calls made into drivers and the bus, in order. */
    var events: seq<Event>

    function Abstract(): System
      reads this, channels, sensors
    {
      System(mode, channels[..], sensors[..], ch1, events)
    }

    ghost predicate Valid()
      reads this, channels, sensors
    {
      Inv(Abstract())
    }

    /** The layer starts uncoupled over channels and sensors created
        elsewhere. */
    constructor (chs: seq<Channel>, sens: seq<OtpConf>, ch1: nat)
      requires ch1 + 2 <= |sens| && ch1 + |chs| <= |sens|
      ensures Valid() && fresh(channels) && fresh(sensors)
      ensures Abstract() == System(None, chs, sens, ch1, [])
    {
      mode := None;
      channels := new Channel[|chs|](k requires 0 <= k < |chs| => chs[k]);
      sensors := new OtpConf[|sens|](k requires 0 <= k < |sens| => sens[k]);
      this.ch1 := ch1;
      events := [];
    }

    method GetType() returns (m: Type)
      ensures m == mode
    {
      m := mode;
    }

    method SetType(value: Type) returns (ok: bool)
      requires Valid()
      modifies this, channels, sensors
      ensures Valid()
      ensures (Abstract(), ok) == Transition.SetType(old(Abstract()), value)
    {
      ghost var before := Abstract();
      if mode != value {
        if channels.Length < 2 {
          return false;
        }
        if !channels[0].ok || !channels[1].ok {
          return false;
        }
        mode := value;
        ghost var start := Abstract();
        for i := 0 to 2
          invariant mode == value
          invariant Abstract() == Transition.Steps(start, i)
        {
          ResetPass(i);
        }
        events := events + [SwitchChannelCoupling(mode)];
      }
      ok := true;
      Transition.SetTypeKeepsInv(before, value);
    }

    /** One pass of setType's reset loop, for channel `i` of the pair. */
    method ResetPass(i: nat)
      requires WellFormed(Abstract()) && channels.Length >= 2 && i < 2
      modifies this, channels, sensors
      ensures Abstract() == Transition.ResetStep(old(Abstract()), i)
    {
      ghost var s := Abstract();
      DisableChannel(i);
      assert GetUMin(Abstract(), i) == GetUMin(s, i) && GetIMin(Abstract(), i) == GetIMin(s, i);
      ResetSetPoints(i);
      assert channels[0].prot == s.chans[0].prot && channels[1].prot == s.chans[1].prot;
      MergeProtection(i);
      MergeSensor(i);
    }

    /** First part of a pass of setType's reset loop for channel `i`: the
        output is disabled, and remote programming and low ripple are
        switched off where the channel has them. */
    method DisableChannel(i: nat)
      requires i < channels.Length
      modifies this, channels
      ensures mode == old(mode)
      ensures channels[..] == old(channels[..])[i := old(channels[i]).OutputEnable(false)]
      ensures events == old(events) + Transition.ResetEvents(old(channels[i]), i)
    {
      var ch := channels[i];
      channels[i] := ch.OutputEnable(false);
      if ch.rprog {
        events := events + [Event.RemoteProgrammingEnable(i, false)];
      }
      if ch.lripple {
        events := events + [Event.LowRippleEnable(i, false)];
      }
    }

    /** Second part: voltage and current set to the minima the getters
        report in the current mode. */
    method ResetSetPoints(i: nat)
      requires WellFormed(Abstract()) && i < channels.Length
      modifies channels
      ensures channels[..] == old(channels[..])[i := old(channels[i])
        .SetVoltage(GetUMin(old(Abstract()), i))
        .SetCurrent(GetIMin(old(Abstract()), i))]
    {
      ghost var s := Abstract();
      channels[i] := channels[i].SetVoltage(GetUMin(Abstract(), i));
      assert GetIMin(Abstract(), i) == GetIMin(s, i);
      channels[i] := channels[i].SetCurrent(GetIMin(Abstract(), i));
    }

    /** Third part: every protection state of channel `i` becomes the OR, and
        every level and delay the MIN, of the pair's current settings. */
    method MergeProtection(i: nat)
      requires 2 <= channels.Length && i < 2
      modifies channels
      ensures channels[..] == old(channels[..])[i := old(channels[i])
        .(prot := Transition.MergeProt(old(channels[0].prot), old(channels[1].prot)))]
    {
      var p0, p1 := channels[0].prot, channels[1].prot;
      var p := channels[i].prot;
      p := p.(uState := p0.uState || p1.uState);
      p := p.(uLevel := Min(p0.uLevel, p1.uLevel));
      p := p.(uDelay := Min(p0.uDelay, p1.uDelay));
      p := p.(iState := p0.iState || p1.iState);
      p := p.(iDelay := Min(p0.iDelay, p1.iDelay));
      p := p.(pState := p0.pState || p1.pState);
      p := p.(pLevel := Min(p0.pLevel, p1.pLevel));
      p := p.(pDelay := Min(p0.pDelay, p1.pDelay));
      channels[i] := channels[i].(prot := p);
    }

    /** Last part: the OTP settings of CH1 and CH2, as
        they are now, merged into the sensor of channel `i`. */
    method MergeSensor(i: nat)
      requires WellFormed(Abstract()) && channels.Length >= 2 && i < 2
      modifies sensors
      ensures sensors[..] == old(sensors[..])[ch1 + i := Transition.MergeOtp(old(sensors[ch1]), old(sensors[ch1 + 1]))]
    {
      var o := sensors[ch1 + i];
      o := o.(state := sensors[ch1].state || sensors[ch1 + 1].state);
      o := o.(level := Min(sensors[ch1].level, sensors[ch1 + 1].level));
      o := o.(delay := Min(sensors[ch1].delay, sensors[ch1 + 1].delay));
      sensors[ch1 + i] := o;
    }

    // ---- set points and limits ----

    method SetVoltage(c: nat, voltage: real)
      requires Valid() && c < channels.Length
      modifies channels
      ensures Valid() && Abstract() == Cascade.SetVoltage(old(Abstract()), c, voltage)
    {
      if mode == Series {
        channels[0] := channels[0].SetVoltage(voltage / 2.0);
        channels[1] := channels[1].SetVoltage(voltage / 2.0);
      } else if mode == Parallel {
        channels[0] := channels[0].SetVoltage(voltage);
        channels[1] := channels[1].SetVoltage(voltage);
      } else {
        channels[c] := channels[c].SetVoltage(voltage);
      }
    }

    method SetVoltageLimit(c: nat, limit: real)
      requires Valid() && c < channels.Length
      modifies channels
      ensures Valid() && Abstract() == Cascade.SetVoltageLimit(old(Abstract()), c, limit)
    {
      if mode == Series {
        channels[0] := channels[0].SetVoltageLimit(limit / 2.0);
        channels[1] := channels[1].SetVoltageLimit(limit / 2.0);
      } else if mode == Parallel {
        channels[0] := channels[0].SetVoltageLimit(limit);
        channels[1] := channels[1].SetVoltageLimit(limit);
      } else {
        channels[c] := channels[c].SetVoltageLimit(limit);
      }
    }

    method SetCurrent(c: nat, current: real)
      requires Valid() && c < channels.Length
      modifies channels
      ensures Valid() && Abstract() == Cascade.SetCurrent(old(Abstract()), c, current)
    {
      if mode == Parallel {
        channels[0] := channels[0].SetCurrent(current / 2.0);
        channels[1] := channels[1].SetCurrent(current / 2.0);
      } else if mode == Series {
        channels[0] := channels[0].SetCurrent(current);
        channels[1] := channels[1].SetCurrent(current);
      } else {
        channels[c] := channels[c].SetCurrent(current);
      }
    }

    method SetCurrentLimit(c: nat, limit: real)
      requires Valid() && c < channels.Length
      modifies channels
      ensures Valid() && Abstract() == Cascade.SetCurrentLimit(old(Abstract()), c, limit)
    {
      if mode == Parallel {
        channels[0] := channels[0].SetCurrentLimit(limit / 2.0);
        channels[1] := channels[1].SetCurrentLimit(limit / 2.0);
      } else if mode == Series {
        channels[0] := channels[0].SetCurrentLimit(limit);
        channels[1] := channels[1].SetCurrentLimit(limit);
      } else {
        channels[c] := channels[c].SetCurrentLimit(limit);
      }
    }

    method SetPowerLimit(c: nat, limit: real)
      requires Valid() && c < channels.Length
      modifies channels
      ensures Valid() && Abstract() == Cascade.SetPowerLimit(old(Abstract()), c, limit)
    {
      if mode != None {
        channels[0] := channels[0].SetPowerLimit(limit / 2.0);
        channels[1] := channels[1].SetPowerLimit(limit / 2.0);
      } else {
        channels[c] := channels[c].SetPowerLimit(limit);
      }
    }

    // ---- channel protection ----

    method SetOvpParameters(c: nat, state: bool, level: real, delay: real)
      requires Valid() && c < channels.Length
      modifies channels
      ensures Valid()
      ensures Abstract() == Protection.SetOvpParameters(old(Abstract()), c, state, level, delay)
    {
      if mode != None {
        channels[0] := channels[0].(prot := channels[0].prot.(uState := state, uLevel := level / 2.0, uDelay := delay));
        channels[1] := channels[1].(prot := channels[1].prot.(uState := state, uLevel := level / 2.0, uDelay := delay));
      } else {
        channels[c] := channels[c].(prot := channels[c].prot.(uState := state, uLevel := level, uDelay := delay));
      }
    }

    method SetOvpState(c: nat, state: bool)
      requires Valid() && c < channels.Length
      modifies channels
      ensures Valid() && Abstract() == Protection.SetOvpState(old(Abstract()), c, state)
    {
      if mode != None {
        channels[0] := channels[0].(prot := channels[0].prot.(uState := state));
        channels[1] := channels[1].(prot := channels[1].prot.(uState := state));
      } else {
        channels[c] := channels[c].(prot := channels[c].prot.(uState := state));
      }
    }

    method SetOvpLevel(c: nat, level: real)
      requires Valid() && c < channels.Length
      modifies channels
      ensures Valid() && Abstract() == Protection.SetOvpLevel(old(Abstract()), c, level)
    {
      if mode != None {
        channels[0] := channels[0].(prot := channels[0].prot.(uLevel := level / 2.0));
        channels[1] := channels[1].(prot := channels[1].prot.(uLevel := level / 2.0));
      } else {
        channels[c] := channels[c].(prot := channels[c].prot.(uLevel := level));
      }
    }

    method SetOvpDelay(c: nat, delay: real)
      requires Valid() && c < channels.Length
      modifies channels
      ensures Valid() && Abstract() == Protection.SetOvpDelay(old(Abstract()), c, delay)
    {
      if mode != None {
        channels[0] := channels[0].(prot := channels[0].prot.(uDelay := delay));
        channels[1] := channels[1].(prot := channels[1].prot.(uDelay := delay));
      } else {
        channels[c] := channels[c].(prot := channels[c].prot.(uDelay := delay));
      }
    }

    method SetOcpParameters(c: nat, state: bool, delay: real)
      requires Valid() && c < channels.Length
      modifies channels
      ensures Valid() && Abstract() == Protection.SetOcpParameters(old(Abstract()), c, state, delay)
    {
      if mode != None {
        channels[0] := channels[0].(prot := channels[0].prot.(iState := state, iDelay := delay));
        channels[1] := channels[1].(prot := channels[1].prot.(iState := state, iDelay := delay));
      } else {
        channels[c] := channels[c].(prot := channels[c].prot.(iState := state, iDelay := delay));
      }
    }

    method SetOcpState(c: nat, state: bool)
      requires Valid() && c < channels.Length
      modifies channels
      ensures Valid() && Abstract() == Protection.SetOcpState(old(Abstract()), c, state)
    {
      if mode != None {
        channels[0] := channels[0].(prot := channels[0].prot.(iState := state));
        channels[1] := channels[1].(prot := channels[1].prot.(iState := state));
      } else {
        channels[c] := channels[c].(prot := channels[c].prot.(iState := state));
      }
    }

    method SetOcpDelay(c: nat, delay: real)
      requires Valid() && c < channels.Length
      modifies channels
      ensures Valid() && Abstract() == Protection.SetOcpDelay(old(Abstract()), c, delay)
    {
      if mode != None {
        channels[0] := channels[0].(prot := channels[0].prot.(iDelay := delay));
        channels[1] := channels[1].(prot := channels[1].prot.(iDelay := delay));
      } else {
        channels[c] := channels[c].(prot := channels[c].prot.(iDelay := delay));
      }
    }

    method SetOppParameters(c: nat, state: bool, level: real, delay: real)
      requires Valid() && c < channels.Length
      modifies channels
      ensures Valid()
      ensures Abstract() == Protection.SetOppParameters(old(Abstract()), c, state, level, delay)
    {
      if mode != None {
        channels[0] := channels[0].(prot := channels[0].prot.(pState := state, pLevel := level / 2.0, pDelay := delay));
        channels[1] := channels[1].(prot := channels[1].prot.(pState := state, pLevel := level / 2.0, pDelay := delay));
      } else {
        channels[c] := channels[c].(prot := channels[c].prot.(pState := state, pLevel := level, pDelay := delay));
      }
    }

    method SetOppState(c: nat, state: bool)
      requires Valid() && c < channels.Length
      modifies channels
      ensures Valid() && Abstract() == Protection.SetOppState(old(Abstract()), c, state)
    {
      if mode != None {
        channels[0] := channels[0].(prot := channels[0].prot.(pState := state));
        channels[1] := channels[1].(prot := channels[1].prot.(pState := state));
      } else {
        channels[c] := channels[c].(prot := channels[c].prot.(pState := state));
      }
    }

    method SetOppLevel(c: nat, level: real)
      requires Valid() && c < channels.Length
      modifies channels
      ensures Valid() && Abstract() == Protection.SetOppLevel(old(Abstract()), c, level)
    {
      if mode != None {
        channels[0] := channels[0].(prot := channels[0].prot.(pLevel := level / 2.0));
        channels[1] := channels[1].(prot := channels[1].prot.(pLevel := level / 2.0));
      } else {
        channels[c] := channels[c].(prot := channels[c].prot.(pLevel := level));
      }
    }

    method SetOppDelay(c: nat, delay: real)
      requires Valid() && c < channels.Length
      modifies channels
      ensures Valid() && Abstract() == Protection.SetOppDelay(old(Abstract()), c, delay)
    {
      if mode != None {
        channels[0] := channels[0].(prot := channels[0].prot.(pDelay := delay));
        channels[1] := channels[1].(prot := channels[1].prot.(pDelay := delay));
      } else {
        channels[c] := channels[c].(prot := channels[c].prot.(pDelay := delay));
      }
    }

    // ---- output and low ripple ----

    method OutputEnable(c: nat, enable: bool)
      requires Valid() && c < channels.Length
      modifies channels
      ensures Valid() && Abstract() == OutputControl.OutputEnable(old(Abstract()), c, enable)
    {
      if mode != None {
        channels[0] := channels[0].OutputEnable(enable);
        channels[1] := channels[1].OutputEnable(enable);
      } else {
        channels[c] := channels[c].OutputEnable(enable);
      }
    }

    method IsLowRippleAllowed(c: nat) returns (allowed: bool)
      requires Valid() && c < channels.Length
      ensures allowed <==> forall k: nat | k in Targets(mode, c) :: channels[k].lripple
    {
      if mode != None {
        allowed := channels[0].lripple && channels[1].lripple;
      } else {
        allowed := channels[c].lripple;
      }
    }

    /** `answers[k]` is what channel k's driver reports when asked. */
    method LowRippleEnable(c: nat, enable: bool, answers: seq<bool>) returns (done: bool)
      requires Valid() && c < channels.Length && |answers| == channels.Length
      modifies this
      ensures Valid()
      ensures (Abstract(), done) == OutputControl.LowRippleEnable(old(Abstract()), c, enable, answers)
    {
      if mode != None {
        events := events + [Event.LowRippleEnable(0, enable)];
        done := answers[0];
        if done {
          events := events + [Event.LowRippleEnable(1, enable)];
          done := answers[1];
        }
      } else {
        events := events + [Event.LowRippleEnable(c, enable)];
        done := answers[c];
      }
    }

    method LowRippleAutoEnable(c: nat, enable: bool)
      requires Valid() && c < channels.Length
      modifies this, channels
      ensures Valid() && Abstract() == OutputControl.LowRippleAutoEnable(old(Abstract()), c, enable)
    {
      if mode != None {
        events := events + [Event.LowRippleAutoEnable(0, enable)];
        events := events + [Event.LowRippleAutoEnable(1, enable)];
      } else {
        channels[c] := channels[c].OutputEnable(enable);
      }
    }

    method ClearProtection(c: nat)
      requires Valid() && c < channels.Length
      modifies this
      ensures Valid() && Abstract() == Protection.ClearProtection(old(Abstract()), c)
    {
      if mode != None {
        events := events + [Event.ClearProtection(0)];
        events := events + [Event.ClearProtection(1)];
      } else {
        events := events + [Event.ClearProtection(c)];
      }
    }

    method DisableProtection(c: nat)
      requires Valid() && c < channels.Length
      modifies this
      ensures Valid() && Abstract() == Protection.DisableProtection(old(Abstract()), c)
    {
      if mode != None {
        events := events + [Event.DisableProtection(0)];
        events := events + [Event.DisableProtection(1)];
      } else {
        events := events + [Event.DisableProtection(c)];
      }
    }

    // ---- temperature protection ----

    method ClearOtpProtection(sensor: nat)
      requires Valid() && sensor < sensors.Length
      modifies this
      ensures Valid() && Abstract() == Protection.ClearOtpProtection(old(Abstract()), sensor)
    {
      if (sensor == ch1 || sensor == ch1 + 1) && mode != None {
        events := events + [Event.ClearOtpProtection(ch1)];
        events := events + [Event.ClearOtpProtection(ch1 + 1)];
      } else {
        events := events + [Event.ClearOtpProtection(sensor)];
      }
    }

    method SetOtpParameters(c: nat, state: int, level: real, delay: real)
      requires Valid() && c < channels.Length
      modifies sensors
      ensures Valid()
      ensures Abstract() == Protection.SetOtpParameters(old(Abstract()), c, state, level, delay)
    {
      if mode != None {
        sensors[ch1] := sensors[ch1].(state := state != 0);
        sensors[ch1 + 1] := sensors[ch1 + 1].(state := state != 0);
        sensors[ch1] := sensors[ch1].(level := level);
        sensors[ch1 + 1] := sensors[ch1 + 1].(level := level);
        sensors[ch1] := sensors[ch1].(delay := delay);
        sensors[ch1 + 1] := sensors[ch1 + 1].(delay := delay);
      } else {
        sensors[ch1 + c] := sensors[ch1 + c].(state := state != 0);
        sensors[ch1 + c] := sensors[ch1 + c].(level := level);
        sensors[ch1 + c] := sensors[ch1 + c].(delay := delay);
      }
    }

    method SetOtpState(sensor: nat, state: int)
      requires Valid() && sensor < sensors.Length
      modifies sensors
      ensures Valid() && Abstract() == Protection.SetOtpState(old(Abstract()), sensor, state)
    {
      if (sensor == ch1 || sensor == ch1 + 1) && mode != None {
        sensors[ch1] := sensors[ch1].(state := state != 0);
        sensors[ch1 + 1] := sensors[ch1 + 1].(state := state != 0);
      } else {
        sensors[sensor] := sensors[sensor].(state := state != 0);
      }
    }

    method SetOtpLevel(sensor: nat, level: real)
      requires Valid() && sensor < sensors.Length
      modifies sensors
      ensures Valid() && Abstract() == Protection.SetOtpLevel(old(Abstract()), sensor, level)
    {
      if (sensor == ch1 || sensor == ch1 + 1) && mode != None {
        sensors[ch1] := sensors[ch1].(level := level);
        sensors[ch1 + 1] := sensors[ch1 + 1].(level := level);
      } else {
        sensors[sensor] := sensors[sensor].(level := level);
      }
    }

    method SetOtpDelay(sensor: nat, delay: real)
      requires Valid() && sensor < sensors.Length
      modifies sensors
      ensures Valid() && Abstract() == Protection.SetOtpDelay(old(Abstract()), sensor, delay)
    {
      if (sensor == ch1 || sensor == ch1 + 1) && mode != None {
        sensors[ch1] := sensors[ch1].(delay := delay);
        sensors[ch1 + 1] := sensors[ch1 + 1].(delay := delay);
      } else {
        sensors[sensor] := sensors[sensor].(delay := delay);
      }
    }
  }
}
