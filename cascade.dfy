/** Write cascades for set points and limits. In the mode that drives a
    quantity the value is split evenly over the pair (halved to both
    channels); in the other coupled mode it is broadcast unchanged to both
    channels; uncoupled, only the addressed channel is written. */
module Cascade {
  import opened CouplingTypes
  import opened Projection

  /** Writes `a` to channel 0 and `b` to channel 1. */
  function WritePair(s: System, a: Channel, b: Channel): System
    requires |s.chans| >= 2
  {
    s.(chans := s.chans[0 := a][1 := b])
  }

  /** Writes `a` to the addressed channel `c`. */
  function WriteOne(s: System, c: nat, a: Channel): System
    requires c < |s.chans|
  {
    s.(chans := s.chans[c := a])
  }

  /** Only channel records change, and only those the mode lets the call
      reach; protection settings are untouched. */
  ghost predicate ChannelWrite(s: System, c: nat, t: System)
    requires Addressable(s, c)
  {
    && t.mode == s.mode && t.sensors == s.sensors && t.ch1 == s.ch1
    && t.events == s.events && |t.chans| == |s.chans|
    && (forall k: nat | k < |s.chans| && k !in Targets(s.mode, c) :: t.chans[k] == s.chans[k])
    && (forall k: nat | k < |s.chans| :: t.chans[k].prot == s.chans[k].prot)
  }

  function SetVoltage(s: System, c: nat, voltage: real): (t: System)
    requires Addressable(s, c)
    ensures Addressable(t, c) && ChannelWrite(s, c, t)
    ensures Inv(s) ==> Inv(t)
  {
    if s.mode == Series then
      WritePair(s, s.chans[0].SetVoltage(voltage / 2.0), s.chans[1].SetVoltage(voltage / 2.0))
    else if s.mode == Parallel then
      WritePair(s, s.chans[0].SetVoltage(voltage), s.chans[1].SetVoltage(voltage))
    else
      WriteOne(s, c, s.chans[c].SetVoltage(voltage))
  }

  function SetVoltageLimit(s: System, c: nat, limit: real): (t: System)
    requires Addressable(s, c)
    ensures Addressable(t, c) && ChannelWrite(s, c, t)
    ensures Inv(s) ==> Inv(t)
  {
    if s.mode == Series then
      WritePair(s, s.chans[0].SetVoltageLimit(limit / 2.0), s.chans[1].SetVoltageLimit(limit / 2.0))
    else if s.mode == Parallel then
      WritePair(s, s.chans[0].SetVoltageLimit(limit), s.chans[1].SetVoltageLimit(limit))
    else
      WriteOne(s, c, s.chans[c].SetVoltageLimit(limit))
  }

  function SetCurrent(s: System, c: nat, current: real): (t: System)
    requires Addressable(s, c)
    ensures Addressable(t, c) && ChannelWrite(s, c, t)
    ensures Inv(s) ==> Inv(t)
  {
    if s.mode == Parallel then
      WritePair(s, s.chans[0].SetCurrent(current / 2.0), s.chans[1].SetCurrent(current / 2.0))
    else if s.mode == Series then
      WritePair(s, s.chans[0].SetCurrent(current), s.chans[1].SetCurrent(current))
    else
      WriteOne(s, c, s.chans[c].SetCurrent(current))
  }

  function SetCurrentLimit(s: System, c: nat, limit: real): (t: System)
    requires Addressable(s, c)
    ensures Addressable(t, c) && ChannelWrite(s, c, t)
    ensures Inv(s) ==> Inv(t)
  {
    if s.mode == Parallel then
      WritePair(s, s.chans[0].SetCurrentLimit(limit / 2.0), s.chans[1].SetCurrentLimit(limit / 2.0))
    else if s.mode == Series then
      WritePair(s, s.chans[0].SetCurrentLimit(limit), s.chans[1].SetCurrentLimit(limit))
    else
      WriteOne(s, c, s.chans[c].SetCurrentLimit(limit))
  }

  function SetPowerLimit(s: System, c: nat, limit: real): (t: System)
    requires Addressable(s, c)
    ensures Addressable(t, c) && ChannelWrite(s, c, t)
    ensures Inv(s) ==> Inv(t)
  {
    if s.mode != None then
      WritePair(s, s.chans[0].SetPowerLimit(limit / 2.0), s.chans[1].SetPowerLimit(limit / 2.0))
    else
      WriteOne(s, c, s.chans[c].SetPowerLimit(limit))
  }

  // ---- round trips ----

  /** setVoltage then getUSet gives back the voltage: in series whichever
      channel is addressed, in parallel on either channel of the pair,
      uncoupled on the addressed channel. Each reached channel changes in
      its voltage set point only; in series each carries half. */
  lemma SetVoltageRoundTrip(s: System, c: nat, voltage: real)
    requires Addressable(s, c)
    ensures var t := SetVoltage(s, c, voltage);
      && (s.mode == Series ==> forall d: nat | d < |t.chans| :: GetUSet(t, d) == voltage)
      && (s.mode == Series ==> t.chans[0].u.setPoint == t.chans[1].u.setPoint == voltage / 2.0)
      && (s.mode == Parallel ==> forall d: nat | d < 2 :: GetUSet(t, d) == voltage)
      && (s.mode == None ==> GetUSet(t, c) == voltage)
      && (forall k: nat | k < |s.chans| :: t.chans[k] == s.chans[k].SetVoltage(t.chans[k].u.setPoint))
  {
  }

  /** setVoltageLimit then getULimit gives back the limit, as for the set
      point; in series each channel of the pair carries half, and only the
      voltage limit of the reached channels changes. */
  lemma SetVoltageLimitRoundTrip(s: System, c: nat, limit: real)
    requires Addressable(s, c)
    ensures var t := SetVoltageLimit(s, c, limit);
      && (s.mode == Series ==> forall d: nat | d < |t.chans| :: GetULimit(t, d) == limit)
      && (s.mode == Series ==> t.chans[0].u.limit == t.chans[1].u.limit == limit / 2.0)
      && (s.mode == Parallel ==> forall d: nat | d < 2 :: GetULimit(t, d) == limit)
      && (s.mode == None ==> GetULimit(t, c) == limit)
      && (forall k: nat | k < |s.chans| :: t.chans[k] == s.chans[k].SetVoltageLimit(t.chans[k].u.limit))
  {
  }

  /** setCurrent then getISet gives back the current: halved over the pair
      in parallel, broadcast unhalved in series, on the addressed channel
      uncoupled. Only the current set point of the reached channels
      changes. */
  lemma SetCurrentRoundTrip(s: System, c: nat, current: real)
    requires Addressable(s, c)
    ensures var t := SetCurrent(s, c, current);
      && (s.mode == Parallel ==> forall d: nat | d < |t.chans| :: GetISet(t, d) == current)
      && (s.mode == Parallel ==> t.chans[0].i.setPoint == t.chans[1].i.setPoint == current / 2.0)
      && (s.mode == Series ==> forall d: nat | d < 2 :: GetISet(t, d) == current)
      && (s.mode == None ==> GetISet(t, c) == current)
      && (forall k: nat | k < |s.chans| :: t.chans[k] == s.chans[k].SetCurrent(t.chans[k].i.setPoint))
  {
  }

  /** setCurrentLimit then getILimit gives back the limit, as for the set
      point; in parallel each channel of the pair carries half, and only the
      current limit of the reached channels changes. */
  lemma SetCurrentLimitRoundTrip(s: System, c: nat, limit: real)
    requires Addressable(s, c)
    ensures var t := SetCurrentLimit(s, c, limit);
      && (s.mode == Parallel ==> forall d: nat | d < |t.chans| :: GetILimit(t, d) == limit)
      && (s.mode == Parallel ==> t.chans[0].i.limit == t.chans[1].i.limit == limit / 2.0)
      && (s.mode == Series ==> forall d: nat | d < 2 :: GetILimit(t, d) == limit)
      && (s.mode == None ==> GetILimit(t, c) == limit)
      && (forall k: nat | k < |s.chans| :: t.chans[k] == s.chans[k].SetCurrentLimit(t.chans[k].i.limit))
  {
  }

  /** setPowerLimit then getPowerLimit gives back the limit in every mode:
      coupled, each channel of the pair carries half. */
  lemma SetPowerLimitRoundTrip(s: System, c: nat, limit: real)
    requires Addressable(s, c)
    ensures var t := SetPowerLimit(s, c, limit);
      && (s.mode != None ==> forall d: nat | d < |t.chans| :: GetPowerLimit(t, d) == limit)
      && (s.mode != None ==> t.chans[0].powerLimit == t.chans[1].powerLimit == limit / 2.0)
      && (s.mode == None ==> GetPowerLimit(t, c) == limit)
      && (forall k: nat | k < |s.chans| :: t.chans[k] == s.chans[k].SetPowerLimit(t.chans[k].powerLimit))
  {
  }
}
