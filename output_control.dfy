/** Output and low-ripple control: broadcast wrappers that reach both
    channels of the pair when coupled and the addressed channel otherwise. */
module OutputControl {
  import opened CouplingTypes
  import opened Cascade

  function OutputEnable(s: System, c: nat, enable: bool): (t: System)
    requires Addressable(s, c)
    ensures Addressable(t, c) && ChannelWrite(s, c, t)
    ensures Inv(s) ==> Inv(t)
    ensures forall k: nat | k < |s.chans| ::
      t.chans[k] == (if k in Targets(s.mode, c) then s.chans[k].(outputEnabled := enable) else s.chans[k])
  {
    if s.mode != None then
      WritePair(s, s.chans[0].OutputEnable(enable), s.chans[1].OutputEnable(enable))
    else
      WriteOne(s, c, s.chans[c].OutputEnable(enable))
  }

  /** Low ripple is allowed when every channel the call reaches has the
      low-ripple feature: both channels when coupled. */
  function IsLowRippleAllowed(s: System, c: nat): (allowed: bool)
    requires Addressable(s, c)
    ensures allowed <==> forall k: nat | k in Targets(s.mode, c) :: s.chans[k].lripple
  {
    if s.mode != None then s.chans[0].lripple && s.chans[1].lripple
    else s.chans[c].lripple
  }

  /** `answers[k]` is what channel k's driver reports when asked to change
      low-ripple mode. Coupled, channel 1 is asked only when channel 0 said
      yes (short-circuit AND). Returns the new state and the combined
      answer. */
  function LowRippleEnable(s: System, c: nat, enable: bool, answers: seq<bool>): (r: (System, bool))
    requires Addressable(s, c) && |answers| == |s.chans|
    ensures r.0 == s.(events := r.0.events)
    ensures r.1 <==> forall k: nat | k in Targets(s.mode, c) :: answers[k]
    ensures s.mode != None ==>
      r.0.events == s.events + [Event.LowRippleEnable(0, enable)]
        + (if answers[0] then [Event.LowRippleEnable(1, enable)] else [])
    ensures s.mode == None ==> r.0.events == s.events + [Event.LowRippleEnable(c, enable)]
  {
    if s.mode != None then
      var t := s.(events := s.events + [Event.LowRippleEnable(0, enable)]);
      if !answers[0] then (t, false)
      else (t.(events := t.events + [Event.LowRippleEnable(1, enable)]), answers[1])
    else
      (s.(events := s.events + [Event.LowRippleEnable(c, enable)]), answers[c])
  }

  /** Coupled, the auto-enable directive goes to both channels; uncoupled
      the addressed channel's OUTPUT is switched instead. */
  function LowRippleAutoEnable(s: System, c: nat, enable: bool): (t: System)
    requires Addressable(s, c)
    ensures Addressable(t, c) && (Inv(s) ==> Inv(t))
    ensures s.mode != None ==> t == s.(events := s.events
      + [Event.LowRippleAutoEnable(0, enable), Event.LowRippleAutoEnable(1, enable)])
    ensures s.mode == None ==> t == OutputEnable(s, c, enable)
  {
    if s.mode != None then
      s.(events := s.events + [Event.LowRippleAutoEnable(0, enable), Event.LowRippleAutoEnable(1, enable)])
    else
      WriteOne(s, c, s.chans[c].OutputEnable(enable))
  }

  /** While coupled, the pair's low-ripple answer is false as soon as
      channel 0 refuses, and channel 1 is then never asked. */
  lemma LowRippleShortCircuit(s: System, c: nat, enable: bool, answers: seq<bool>)
    requires Addressable(s, c) && |answers| == |s.chans| && s.mode != None && !answers[0]
    ensures var r := LowRippleEnable(s, c, enable, answers);
      && !r.1
      && Event.LowRippleEnable(1, enable) !in r.0.events[|s.events|..]
  {
  }
}
