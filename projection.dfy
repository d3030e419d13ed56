/** Read projections: each getter maps the addressed channel `c` onto the
    physical pair according to the coupling mode. In the mode that drives a
    quantity (series for voltage, parallel for current, either coupled mode
    for power and OPP) the pair is read as one unit: additive values are
    summed, ceilings are twice the weaker channel's, floors twice the
    stronger channel's. Otherwise the addressed channel's own field is
    returned. */
module Projection {
  import opened CouplingTypes

  /** `r` is twice the smaller of `a` and `b`: a ceiling the pair can
      honour on both channels. */
  predicate TwiceSmaller(r: real, a: real, b: real)
  {
    r <= 2.0 * a && r <= 2.0 * b && (r == 2.0 * a || r == 2.0 * b)
  }

  /** `r` is twice the larger of `a` and `b`: a floor both channels of the
      pair can reach. */
  predicate TwiceLarger(r: real, a: real, b: real)
  {
    r >= 2.0 * a && r >= 2.0 * b && (r == 2.0 * a || r == 2.0 * b)
  }

  // ---- voltage ----

  function GetUSet(s: System, c: nat): (r: real)
    requires Addressable(s, c)
    ensures s.mode == Series && s.chans[0].u.setPoint == s.chans[1].u.setPoint ==> r == 2.0 * s.chans[0].u.setPoint
  {
    if s.mode == Series then s.chans[0].u.setPoint + s.chans[1].u.setPoint
    else s.chans[c].u.setPoint
  }

  function GetUMon(s: System, c: nat): (r: real)
    requires Addressable(s, c)
    ensures s.mode == Series && s.chans[0].u.mon == s.chans[1].u.mon ==> r == 2.0 * s.chans[0].u.mon
  {
    if s.mode == Series then s.chans[0].u.mon + s.chans[1].u.mon
    else s.chans[c].u.mon
  }

  function GetUMonDac(s: System, c: nat): (r: real)
    requires Addressable(s, c)
    ensures s.mode == Series && s.chans[0].u.monDac == s.chans[1].u.monDac ==> r == 2.0 * s.chans[0].u.monDac
  {
    if s.mode == Series then s.chans[0].u.monDac + s.chans[1].u.monDac
    else s.chans[c].u.monDac
  }

  function GetULimit(s: System, c: nat): (r: real)
    requires Addressable(s, c)
    ensures s.mode == Series ==> TwiceSmaller(r, s.chans[0].u.limit, s.chans[1].u.limit)
  {
    if s.mode == Series then 2.0 * Min(s.chans[0].u.limit, s.chans[1].u.limit)
    else s.chans[c].u.limit
  }

  function GetUMaxLimit(s: System, c: nat): (r: real)
    requires Addressable(s, c)
    ensures s.mode == Series ==> TwiceSmaller(r, s.chans[0].u.maxLimit, s.chans[1].u.maxLimit)
  {
    if s.mode == Series then 2.0 * Min(s.chans[0].u.maxLimit, s.chans[1].u.maxLimit)
    else s.chans[c].u.maxLimit
  }

  function GetUMin(s: System, c: nat): (r: real)
    requires Addressable(s, c)
    ensures s.mode == Series ==> TwiceLarger(r, s.chans[0].u.min, s.chans[1].u.min)
  {
    if s.mode == Series then 2.0 * Max(s.chans[0].u.min, s.chans[1].u.min)
    else s.chans[c].u.min
  }

  function GetUDef(s: System, c: nat): (r: real)
    requires Addressable(s, c)
    ensures s.mode == Series && s.chans[0].u.def == s.chans[1].u.def ==> r == 2.0 * s.chans[0].u.def
  {
    if s.mode == Series then s.chans[0].u.def + s.chans[1].u.def
    else s.chans[c].u.def
  }

  function GetUMax(s: System, c: nat): (r: real)
    requires Addressable(s, c)
    ensures s.mode == Series ==> TwiceSmaller(r, s.chans[0].u.max, s.chans[1].u.max)
  {
    if s.mode == Series then 2.0 * Min(s.chans[0].u.max, s.chans[1].u.max)
    else s.chans[c].u.max
  }

  function GetUProtectionLevel(s: System, c: nat): (r: real)
    requires Addressable(s, c)
    ensures s.mode == Series && s.chans[0].prot.uLevel == s.chans[1].prot.uLevel ==> r == 2.0 * s.chans[0].prot.uLevel
  {
    if s.mode == Series then s.chans[0].prot.uLevel + s.chans[1].prot.uLevel
    else s.chans[c].prot.uLevel
  }

  // ---- current ----

  function GetISet(s: System, c: nat): (r: real)
    requires Addressable(s, c)
    ensures s.mode == Parallel && s.chans[0].i.setPoint == s.chans[1].i.setPoint ==> r == 2.0 * s.chans[0].i.setPoint
  {
    if s.mode == Parallel then s.chans[0].i.setPoint + s.chans[1].i.setPoint
    else s.chans[c].i.setPoint
  }

  function GetIMon(s: System, c: nat): (r: real)
    requires Addressable(s, c)
    ensures s.mode == Parallel && s.chans[0].i.mon == s.chans[1].i.mon ==> r == 2.0 * s.chans[0].i.mon
  {
    if s.mode == Parallel then s.chans[0].i.mon + s.chans[1].i.mon
    else s.chans[c].i.mon
  }

  function GetIMonDac(s: System, c: nat): (r: real)
    requires Addressable(s, c)
    ensures s.mode == Parallel && s.chans[0].i.monDac == s.chans[1].i.monDac ==> r == 2.0 * s.chans[0].i.monDac
  {
    if s.mode == Parallel then s.chans[0].i.monDac + s.chans[1].i.monDac
    else s.chans[c].i.monDac
  }

  function GetILimit(s: System, c: nat): (r: real)
    requires Addressable(s, c)
    ensures s.mode == Parallel ==> TwiceSmaller(r, s.chans[0].i.limit, s.chans[1].i.limit)
  {
    if s.mode == Parallel then 2.0 * Min(s.chans[0].i.limit, s.chans[1].i.limit)
    else s.chans[c].i.limit
  }

  function GetIMaxLimit(s: System, c: nat): (r: real)
    requires Addressable(s, c)
    ensures s.mode == Parallel ==> TwiceSmaller(r, s.chans[0].i.maxLimit, s.chans[1].i.maxLimit)
  {
    if s.mode == Parallel then 2.0 * Min(s.chans[0].i.maxLimit, s.chans[1].i.maxLimit)
    else s.chans[c].i.maxLimit
  }

  function GetIMin(s: System, c: nat): (r: real)
    requires Addressable(s, c)
    ensures s.mode == Parallel ==> TwiceLarger(r, s.chans[0].i.min, s.chans[1].i.min)
  {
    if s.mode == Parallel then 2.0 * Max(s.chans[0].i.min, s.chans[1].i.min)
    else s.chans[c].i.min
  }

  function GetIDef(s: System, c: nat): (r: real)
    requires Addressable(s, c)
    ensures s.mode == Parallel && s.chans[0].i.def == s.chans[1].i.def ==> r == 2.0 * s.chans[0].i.def
  {
    if s.mode == Parallel then s.chans[0].i.def + s.chans[1].i.def
    else s.chans[c].i.def
  }

  function GetIMax(s: System, c: nat): (r: real)
    requires Addressable(s, c)
    ensures s.mode == Parallel ==> TwiceSmaller(r, s.chans[0].i.max, s.chans[1].i.max)
  {
    if s.mode == Parallel then 2.0 * Min(s.chans[0].i.max, s.chans[1].i.max)
    else s.chans[c].i.max
  }

  // ---- power and over-power protection ----

  function GetPowerLimit(s: System, c: nat): (r: real)
    requires Addressable(s, c)
    ensures s.mode != None ==> TwiceSmaller(r, s.chans[0].powerLimit, s.chans[1].powerLimit)
  {
    if s.mode != None then 2.0 * Min(s.chans[0].powerLimit, s.chans[1].powerLimit)
    else s.chans[c].powerLimit
  }

  function GetPowerMinLimit(s: System, c: nat): (r: real)
    requires Addressable(s, c)
    ensures r == 0.0
  {
    if s.mode != None then 0.0 else 0.0
  }

  function GetPowerMaxLimit(s: System, c: nat): (r: real)
    requires Addressable(s, c)
    ensures s.mode != None ==> TwiceSmaller(r, s.chans[0].ptot, s.chans[1].ptot)
  {
    if s.mode != None then 2.0 * Min(s.chans[0].ptot, s.chans[1].ptot)
    else s.chans[c].ptot
  }

  function GetPowerDefaultLimit(s: System, c: nat): (r: real)
    requires Addressable(s, c)
    ensures s.mode != None ==> TwiceSmaller(r, s.chans[0].ptot, s.chans[1].ptot)
  {
    GetPowerMaxLimit(s, c)
  }

  function GetPowerProtectionLevel(s: System, c: nat): (r: real)
    requires Addressable(s, c)
    ensures s.mode != None && s.chans[0].prot.pLevel == s.chans[1].prot.pLevel ==> r == 2.0 * s.chans[0].prot.pLevel
  {
    if s.mode != None then s.chans[0].prot.pLevel + s.chans[1].prot.pLevel
    else s.chans[c].prot.pLevel
  }

  function GetOppMinLevel(s: System, c: nat): (r: real)
    requires Addressable(s, c)
    ensures s.mode != None ==> TwiceLarger(r, s.chans[0].oppMinLevel, s.chans[1].oppMinLevel)
  {
    if s.mode != None then 2.0 * Max(s.chans[0].oppMinLevel, s.chans[1].oppMinLevel)
    else s.chans[c].oppMinLevel
  }

  function GetOppMaxLevel(s: System, c: nat): (r: real)
    requires Addressable(s, c)
    ensures s.mode != None ==> TwiceSmaller(r, s.chans[0].oppMaxLevel, s.chans[1].oppMaxLevel)
  {
    if s.mode != None then 2.0 * Min(s.chans[0].oppMaxLevel, s.chans[1].oppMaxLevel)
    else s.chans[c].oppMaxLevel
  }

  function GetOppDefaultLevel(s: System, c: nat): (r: real)
    requires Addressable(s, c)
    ensures s.mode != None && s.chans[0].oppDefaultLevel == s.chans[1].oppDefaultLevel ==> r == 2.0 * s.chans[0].oppDefaultLevel
  {
    if s.mode != None then s.chans[0].oppDefaultLevel + s.chans[1].oppDefaultLevel
    else s.chans[c].oppDefaultLevel
  }

  // ---- what the projections promise ----

  /** In the mode that drives a quantity the pair reads as one output:
      every getter of that quantity gives the same reading whichever
      channel is addressed, the pair's or any other. */
  lemma CoupledReadsAddressFree(s: System, c: nat, d: nat)
    requires Addressable(s, c) && d < |s.chans|
    ensures s.mode == Series ==>
      && GetUSet(s, c) == GetUSet(s, d)
      && GetUMon(s, c) == GetUMon(s, d)
      && GetUMonDac(s, c) == GetUMonDac(s, d)
      && GetULimit(s, c) == GetULimit(s, d)
      && GetUMaxLimit(s, c) == GetUMaxLimit(s, d)
      && GetUMin(s, c) == GetUMin(s, d)
      && GetUDef(s, c) == GetUDef(s, d)
      && GetUMax(s, c) == GetUMax(s, d)
      && GetUProtectionLevel(s, c) == GetUProtectionLevel(s, d)
    ensures s.mode == Parallel ==>
      && GetISet(s, c) == GetISet(s, d)
      && GetIMon(s, c) == GetIMon(s, d)
      && GetIMonDac(s, c) == GetIMonDac(s, d)
      && GetILimit(s, c) == GetILimit(s, d)
      && GetIMaxLimit(s, c) == GetIMaxLimit(s, d)
      && GetIMin(s, c) == GetIMin(s, d)
      && GetIDef(s, c) == GetIDef(s, d)
      && GetIMax(s, c) == GetIMax(s, d)
    ensures s.mode != None ==>
      && GetPowerLimit(s, c) == GetPowerLimit(s, d)
      && GetPowerMinLimit(s, c) == GetPowerMinLimit(s, d)
      && GetPowerMaxLimit(s, c) == GetPowerMaxLimit(s, d)
      && GetPowerDefaultLimit(s, c) == GetPowerDefaultLimit(s, d)
      && GetPowerProtectionLevel(s, c) == GetPowerProtectionLevel(s, d)
      && GetOppMinLevel(s, c) == GetOppMinLevel(s, d)
      && GetOppMaxLevel(s, c) == GetOppMaxLevel(s, d)
      && GetOppDefaultLevel(s, c) == GetOppDefaultLevel(s, d)
  {
  }

  /** Outside the mode that drives a quantity, its getters depend on the
      addressed channel alone: two systems in the same mode whose channel
      `c` agree read the same at `c`, whatever their other channels hold. */
  lemma UncoupledReadsOwnChannel(s: System, s': System, c: nat)
    requires Addressable(s, c) && Addressable(s', c)
    requires s'.mode == s.mode && s'.chans[c] == s.chans[c]
    ensures s.mode != Series ==>
      && GetUSet(s, c) == GetUSet(s', c)
      && GetUMon(s, c) == GetUMon(s', c)
      && GetUMonDac(s, c) == GetUMonDac(s', c)
      && GetULimit(s, c) == GetULimit(s', c)
      && GetUMaxLimit(s, c) == GetUMaxLimit(s', c)
      && GetUMin(s, c) == GetUMin(s', c)
      && GetUDef(s, c) == GetUDef(s', c)
      && GetUMax(s, c) == GetUMax(s', c)
      && GetUProtectionLevel(s, c) == GetUProtectionLevel(s', c)
    ensures s.mode != Parallel ==>
      && GetISet(s, c) == GetISet(s', c)
      && GetIMon(s, c) == GetIMon(s', c)
      && GetIMonDac(s, c) == GetIMonDac(s', c)
      && GetILimit(s, c) == GetILimit(s', c)
      && GetIMaxLimit(s, c) == GetIMaxLimit(s', c)
      && GetIMin(s, c) == GetIMin(s', c)
      && GetIDef(s, c) == GetIDef(s', c)
      && GetIMax(s, c) == GetIMax(s', c)
    ensures s.mode == None ==>
      && GetPowerLimit(s, c) == GetPowerLimit(s', c)
      && GetPowerMaxLimit(s, c) == GetPowerMaxLimit(s', c)
      && GetPowerDefaultLimit(s, c) == GetPowerDefaultLimit(s', c)
      && GetPowerProtectionLevel(s, c) == GetPowerProtectionLevel(s', c)
      && GetOppMinLevel(s, c) == GetOppMinLevel(s', c)
      && GetOppMaxLevel(s, c) == GetOppMaxLevel(s', c)
      && GetOppDefaultLevel(s, c) == GetOppDefaultLevel(s', c)
  {
  }

  /** Under the coupled-pair invariant the protection-level readings do not
      depend on which channel of the pair is addressed, in either coupled
      mode; in parallel the OVP reading is one channel's (halved) level. */
  lemma ProtectionLevelsShared(s: System, c: nat, d: nat)
    requires Inv(s) && s.mode != None && c < 2 && d < 2
    ensures GetUProtectionLevel(s, c) == GetUProtectionLevel(s, d)
    ensures GetPowerProtectionLevel(s, c) == GetPowerProtectionLevel(s, d)
    ensures s.mode == Parallel ==> GetUProtectionLevel(s, c) == s.chans[0].prot.uLevel
  {
  }
}
