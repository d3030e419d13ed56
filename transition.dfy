/** The mode transition setType: a guarded change of the coupling mode
    followed by a reset of the physical pair. The reset is a loop over
    channels 0 and 1; each pass disables the channel's output, remote
    programming and low ripple, sets the voltage and current to the minima
    read in the NEW mode, and merges the protection settings of the pair
    (states by OR, levels and delays by MIN) into the channel and into its
    temperature sensor, reading the sibling's current — possibly already
    merged — values. */
module Transition {
  import opened CouplingTypes
  import opened Projection

  /** OR/MIN merge of two channel protection configurations. */
  function MergeProt(a: ProtConf, b: ProtConf): ProtConf
  {
    ProtConf(
      a.uState || b.uState, Min(a.uLevel, b.uLevel), Min(a.uDelay, b.uDelay),
      a.iState || b.iState, Min(a.iDelay, b.iDelay),
      a.pState || b.pState, Min(a.pLevel, b.pLevel), Min(a.pDelay, b.pDelay))
  }

  /** OR/MIN merge of two sensor OTP configurations. */
  function MergeOtp(a: OtpConf, b: OtpConf): OtpConf
  {
    OtpConf(a.state || b.state, Min(a.level, b.level), Min(a.delay, b.delay))
  }

  /** The driver calls one pass makes for channel `i` besides the field
      stores: remote programming and low ripple are switched off when the
      channel has the feature. */
  function ResetEvents(ch: Channel, i: nat): seq<Event>
  {
    (if ch.rprog then [RemoteProgrammingEnable(i, false)] else [])
      + (if ch.lripple then [LowRippleEnable(i, false)] else [])
  }

  /** One pass of the reset loop, for channel `i`, on the current state. */
  function ResetStep(s: System, i: nat): (t: System)
    requires WellFormed(s) && |s.chans| >= 2 && i < 2
    ensures WellFormed(t) && t.mode == s.mode && t.ch1 == s.ch1
    ensures |t.chans| == |s.chans| && |t.sensors| == |s.sensors| && s.events <= t.events
  {
    var ch := s.chans[i]
      .OutputEnable(false)
      .SetVoltage(GetUMin(s, i))
      .SetCurrent(GetIMin(s, i))
      .(prot := MergeProt(s.chans[0].prot, s.chans[1].prot));
    var sensor := MergeOtp(s.sensors[s.ch1], s.sensors[s.ch1 + 1]);
    s.(chans := s.chans[i := ch],
       sensors := s.sensors[s.ch1 + i := sensor],
       events := s.events + ResetEvents(s.chans[i], i))
  }

  /** The first `n` passes of the reset loop. */
  function Steps(s: System, n: nat): (t: System)
    requires WellFormed(s) && |s.chans| >= 2 && n <= 2
    ensures WellFormed(t) && t.mode == s.mode && t.ch1 == s.ch1
    ensures |t.chans| == |s.chans| && |t.sensors| == |s.sensors| && s.events <= t.events
    ensures forall k: nat | n <= k < |s.chans| :: t.chans[k] == s.chans[k]
    ensures forall j: nat | j < |s.sensors| && !(s.ch1 <= j < s.ch1 + n) :: t.sensors[j] == s.sensors[j]
    decreases n
  {
    if n == 0 then s else ResetStep(Steps(s, n - 1), n - 1)
  }

  /** setType(value): the new state and whether it succeeded. */
  function SetType(s: System, value: Type): (r: (System, bool))
    requires WellFormed(s)
    ensures WellFormed(r.0) && r.0.ch1 == s.ch1 && s.events <= r.0.events
    ensures |r.0.chans| == |s.chans| && |r.0.sensors| == |s.sensors|
  {
    if s.mode == value then (s, true)
    else if |s.chans| < 2 then (s, false)
    else if !s.chans[0].ok || !s.chans[1].ok then (s, false)
    else
      var t := Steps(s.(mode := value), 2);
      (t.(events := t.events + [SwitchChannelCoupling(value)]), true)
  }

  // ---- what setType promises ----

  /** Setting the mode it already has succeeds and changes nothing. */
  lemma SetTypeUnchanged(s: System)
    requires WellFormed(s)
    ensures SetType(s, s.mode) == (s, true)
  {
  }

  /** setType fails exactly when the mode would change but there are fewer
      than two channels or channel 0 or 1 is unhealthy; a failure leaves the
      whole state, mode included, untouched. */
  lemma SetTypeFailure(s: System, value: Type)
    requires WellFormed(s)
    ensures var (t, ok) := SetType(s, value);
      && (!ok <==> s.mode != value && (|s.chans| < 2 || !s.chans[0].ok || !s.chans[1].ok))
      && (!ok ==> t == s)
  {
  }

  /** A successful mode change merges the protection settings of the pair
      as if from a snapshot taken before the change, even though the second
      pass reads channel 0 after the first pass rewrote it: every state is
      the OR of the two prior states and every level and delay the MIN of
      the two prior values, on both channels and on both pair sensors. */
  lemma {:induction false} SetTypeMerges(s: System, value: Type)
    requires WellFormed(s) && s.mode != value && |s.chans| >= 2
    requires s.chans[0].ok && s.chans[1].ok
    ensures var t := SetType(s, value).0;
      var p0, p1 := s.chans[0].prot, s.chans[1].prot;
      var o1, o2 := s.sensors[s.ch1], s.sensors[s.ch1 + 1];
      && (forall k: nat | k < 2 ::
           && t.chans[k].prot.uState == (p0.uState || p1.uState)
           && t.chans[k].prot.uLevel == Min(p0.uLevel, p1.uLevel)
           && t.chans[k].prot.uDelay == Min(p0.uDelay, p1.uDelay)
           && t.chans[k].prot.iState == (p0.iState || p1.iState)
           && t.chans[k].prot.iDelay == Min(p0.iDelay, p1.iDelay)
           && t.chans[k].prot.pState == (p0.pState || p1.pState)
           && t.chans[k].prot.pLevel == Min(p0.pLevel, p1.pLevel)
           && t.chans[k].prot.pDelay == Min(p0.pDelay, p1.pDelay))
      && (forall j: nat | s.ch1 <= j < s.ch1 + 2 ::
           && t.sensors[j].state == (o1.state || o2.state)
           && t.sensors[j].level == Min(o1.level, o2.level)
           && t.sensors[j].delay == Min(o1.delay, o2.delay))
  {
    var s0 := s.(mode := value);
    var s1 := Steps(s0, 1);
    assert s1 == ResetStep(s0, 0);
    assert Steps(s0, 2) == ResetStep(s1, 1);
    var p := MergeProt(s.chans[0].prot, s.chans[1].prot);
    var o := MergeOtp(s.sensors[s.ch1], s.sensors[s.ch1 + 1]);
    assert s1.chans[0].prot == p && s1.chans[1].prot == s.chans[1].prot;
    assert MergeProt(p, s.chans[1].prot) == p;
    assert s1.sensors[s.ch1] == o && s1.sensors[s.ch1 + 1] == s.sensors[s.ch1 + 1];
    assert MergeOtp(o, s.sensors[s.ch1 + 1]) == o;
  }

  /** A successful mode change reports the new mode, leaves both pair
      outputs disabled, sets each pair channel's voltage and current to the
      coupling-aware minima of the new mode, leaves every other channel and
      sensor as it was, records the driver calls of both passes, and
      announces the new mode once, as the last event. */
  lemma {:induction false} SetTypeResets(s: System, value: Type)
    requires WellFormed(s) && s.mode != value && |s.chans| >= 2
    requires s.chans[0].ok && s.chans[1].ok
    ensures var (t, ok) := SetType(s, value);
      && ok && t.mode == value && PairSymmetric(t)
      && (forall k: nat | k < 2 ::
           && !t.chans[k].outputEnabled
           && t.chans[k].u.setPoint == GetUMin(t, k)
           && t.chans[k].i.setPoint == GetIMin(t, k))
      && (forall k: nat | 2 <= k < |s.chans| :: t.chans[k] == s.chans[k])
      && (forall j: nat | j < |s.sensors| && j != s.ch1 && j != s.ch1 + 1 :: t.sensors[j] == s.sensors[j])
      && t.events == s.events + ResetEvents(s.chans[0], 0) + ResetEvents(s.chans[1], 1)
                     + [SwitchChannelCoupling(value)]
  {
    var s0 := s.(mode := value);
    var s1 := Steps(s0, 1);
    assert s1 == ResetStep(s0, 0);
    var s2 := Steps(s0, 2);
    assert s2 == ResetStep(s1, 1);
    SetTypeMerges(s, value);
    assert GetUMin(s1, 1) == GetUMin(s0, 1) == GetUMin(s2, 1);
    assert GetIMin(s1, 1) == GetIMin(s0, 1) == GetIMin(s2, 1);
    assert GetUMin(s0, 0) == GetUMin(s2, 0);
    assert GetIMin(s0, 0) == GetIMin(s2, 0);
  }

  /** A successful mode change touches only the output flag, the two set
      points and the protection settings of the pair channels: their
      limits, ranges, readings, power settings, features and health are
      kept. */
  lemma {:induction false} SetTypeKeepsChannelFields(s: System, value: Type)
    requires WellFormed(s) && s.mode != value && |s.chans| >= 2
    requires s.chans[0].ok && s.chans[1].ok
    ensures var t := SetType(s, value).0;
      forall k: nat | k < 2 ::
        t.chans[k] == s.chans[k].(outputEnabled := false,
          u := s.chans[k].u.(setPoint := t.chans[k].u.setPoint),
          i := s.chans[k].i.(setPoint := t.chans[k].i.setPoint),
          prot := t.chans[k].prot)
  {
    var s0 := s.(mode := value);
    var s1 := Steps(s0, 1);
    assert s1 == ResetStep(s0, 0);
    assert Steps(s0, 2) == ResetStep(s1, 1);
    assert s1.chans[1] == s.chans[1];
  }

  /** Because the mode is switched before the pair is reset, a change to
      series gives each channel twice the larger voltage minimum, so the
      coupled set point reads back as twice the coupled minimum. */
  lemma SeriesResetDoublesMinimum(s: System, c: nat)
    requires WellFormed(s) && s.mode != Series && c < |s.chans|
    requires |s.chans| >= 2 && s.chans[0].ok && s.chans[1].ok
    ensures var t := SetType(s, Series).0;
      && t.chans[0].u.setPoint == t.chans[1].u.setPoint == 2.0 * Max(s.chans[0].u.min, s.chans[1].u.min)
      && GetUSet(t, c) == 2.0 * GetUMin(t, c)
  {
    SetTypeResets(s, Series);
  }

  /** The parallel counterpart: a change to parallel gives each channel
      twice the larger current minimum, so the coupled current set point
      reads back as twice the coupled minimum. */
  lemma ParallelResetDoublesMinimum(s: System, c: nat)
    requires WellFormed(s) && s.mode != Parallel && c < |s.chans|
    requires |s.chans| >= 2 && s.chans[0].ok && s.chans[1].ok
    ensures var t := SetType(s, Parallel).0;
      && t.chans[0].i.setPoint == t.chans[1].i.setPoint == 2.0 * Max(s.chans[0].i.min, s.chans[1].i.min)
      && GetISet(t, c) == 2.0 * GetIMin(t, c)
  {
    SetTypeResets(s, Parallel);
  }

  /** setType keeps the coupled-pair invariant: whatever it returns, the
      new state satisfies it whenever the old one did. */
  lemma SetTypeKeepsInv(s: System, value: Type)
    requires Inv(s)
    ensures Inv(SetType(s, value).0)
  {
    if s.mode != value && |s.chans| >= 2 && s.chans[0].ok && s.chans[1].ok {
      SetTypeResets(s, value);
    }
  }

  /** Setting the same mode twice: the second call succeeds and changes
      nothing beyond the first. */
  lemma SetTypeIdempotent(s: System, value: Type)
    requires WellFormed(s)
    ensures var (t, ok) := SetType(s, value);
      ok ==> SetType(t, value) == (t, true)
  {
    if s.mode != value && |s.chans| >= 2 && s.chans[0].ok && s.chans[1].ok {
      SetTypeResets(s, value);
    }
  }
}
