# Channel coupling in the EEZ PSU firmware

This project models the channel-coupling layer of the EEZ PSU firmware
(`eez_psu_sketch/channel_coupling.cpp`). The layer can bind the first two
channels of the power supply into one logical output:

- **series**: the voltages add up;
- **parallel**: the currents add up;
- **uncoupled**: each channel is independent.

The layer does three things:

- **setType** is a guarded mode transition. It resets the pair and merges
  the pair's protection settings.
- **Getters** project the two channels onto one channel as the mode
  dictates: they sum, double the tighter bound, or pass a value through.
- **Setters** cascade a write to both channels of the pair. Depending on
  the quantity, the value is halved or left as it is.

The temperature-sensor settings of the pair (sensors CH1 and CH2) are
coupled in the same way.

Modules:

- `CouplingTypes` (coupling_types.dfy) holds the data model:
  - the coupling `Type`;
  - a channel's quantities, protection configuration, feature bits and
    output state;
  - a sensor's OTP configuration;
  - the `System` value, made of the mode, the channels, the sensors, the
    index `ch1` of sensor CH1 (CH2 is `ch1 + 1`) and a log of the calls
    made into drivers;
  - the coupled-pair invariant `Inv`. While coupled, channels 0 and 1
    carry the same protection configuration and CH1 and CH2 the same OTP
    configuration.
- `Projection` (projection.dfy) holds the getters, as functions of the
  system state.
- `Cascade` (cascade.dfy) holds the set-point and limit setters.
- `Protection` (protection.dfy) holds:
  - the OVP, OCP, OPP and OTP setters;
  - the clear and disable broadcasts.
- `OutputControl` (output_control.dfy) holds output enable and low
  ripple.
- `Transition` (transition.dfy) holds setType:
  - one pass of its reset loop (`ResetStep`);
  - the loop so far (`Steps`);
  - the properties of the whole transition.
- `Session` (session.dfy) covers any sequence of calls into the layer's
  mutating entry points. It proves what holds across calls: the pair stays
  mirrored, the call log only grows, and only setType moves the mode.
- `ChannelCoupling` (channel_coupling.dfy) holds the class `Coupling`:
  - it owns the mode, the channel array and the sensor array, and updates
    them in place, the way the firmware does;
  - each mutating entry point is proved to leave exactly the state that
    the matching specification function computes (`Abstract()`), and to
    keep `Inv`; `GetType` and `IsLowRippleAllowed` change nothing, and the
    helpers of the reset pass state their effect on the fields they write,
    since `Inv` does not hold halfway through the transition;
  - setType's reset loop is a `for` loop whose invariant is
    `Abstract() == Steps(start, i)`.

Channels are numbered from 0: `Channel::get(k)` is channel `k`, whose
1-based index is `k + 1`. A channel's own temperature sensor is therefore
`ch1 + k`.

## Behaviour of the code worth noting

- **The merge in setType.** The second pass of the reset loop reads
  `Channel::get(0)` and sensor CH1 after the first pass has rewritten
  them. The model keeps this read-after-write loop.
  `Transition.SetTypeMerges` proves that the result is still the OR/MIN
  merge of the values from before the call, because the merge is
  idempotent.
- **The return type of setType.** The header declares `void setType`,
  while the implementation returns `bool`. The model returns the success
  flag.
- **lowRippleEnable while coupled.** The AND over the pair is
  short-circuit: channel 1 is not asked when channel 0 refuses
  (`OutputControl.LowRippleShortCircuit`).
- **Set points after a change to series.** setType switches the mode
  before resetting the pair. Each channel's voltage is therefore set to
  the series `getUMin`, which is twice the larger channel minimum, and the
  coupled set point reads back as twice the coupled minimum
  (`Transition.SeriesResetDoublesMinimum`).
- **Set points after a change to parallel.** Each channel's current is
  set to the parallel `getIMin`, which is twice the larger current
  minimum, so the coupled current set point reads back as twice the
  coupled minimum (`Transition.ParallelResetDoublesMinimum`). Each
  channel's voltage, by contrast, is set to that channel's own minimum,
  so the two voltage set points are equal only when the two channels
  have equal minima. The model does not assume they are equal.

## Model

| member | source | states |
|---|---|---|
| `Projection.GetUSet` | eez_psu_sketch/channel_coupling.cpp:98-103 | In series, when both channels hold the same voltage set point, the reading is twice one channel's: the pair reads as one output of double rating. |
| `Projection.GetUMon` | eez_psu_sketch/channel_coupling.cpp:105-110 | In series, when both channels hold the same measured voltage, the reading is twice one channel's: the pair reads as one output of double rating. |
| `Projection.GetUMonDac` | eez_psu_sketch/channel_coupling.cpp:112-117 | In series, when both channels hold the same DAC voltage reading, the reading is twice one channel's: the pair reads as one output of double rating. |
| `Projection.GetULimit` | eez_psu_sketch/channel_coupling.cpp:119-124 | In series, the reading is twice the smaller of the two channels' voltage limits: at most twice either channel's, and equal to twice one of them. |
| `Projection.GetUMaxLimit` | eez_psu_sketch/channel_coupling.cpp:126-131 | In series, the reading is twice the smaller of the two channels' maximum voltage limits: at most twice either channel's, and equal to twice one of them. |
| `Projection.GetUMin` | eez_psu_sketch/channel_coupling.cpp:133-138 | In series, the reading is twice the larger of the two channels' voltage minima: at least twice either channel's, and equal to twice one of them. |
| `Projection.GetUDef` | eez_psu_sketch/channel_coupling.cpp:140-145 | In series, when both channels hold the same default voltage, the reading is twice one channel's: the pair reads as one output of double rating. |
| `Projection.GetUMax` | eez_psu_sketch/channel_coupling.cpp:147-152 | In series, the reading is twice the smaller of the two channels' voltage maxima: at most twice either channel's, and equal to twice one of them. |
| `Projection.GetUProtectionLevel` | eez_psu_sketch/channel_coupling.cpp:154-159 | In series, when both channels hold the same OVP level, the reading is twice one channel's: the pair reads as one output of double rating. |
| `Projection.GetISet` | eez_psu_sketch/channel_coupling.cpp:228-233 | In parallel, when both channels hold the same current set point, the reading is twice one channel's: the pair reads as one output of double rating. |
| `Projection.GetIMon` | eez_psu_sketch/channel_coupling.cpp:235-240 | In parallel, when both channels hold the same measured current, the reading is twice one channel's: the pair reads as one output of double rating. |
| `Projection.GetIMonDac` | eez_psu_sketch/channel_coupling.cpp:242-247 | In parallel, when both channels hold the same DAC current reading, the reading is twice one channel's: the pair reads as one output of double rating. |
| `Projection.GetILimit` | eez_psu_sketch/channel_coupling.cpp:249-254 | In parallel, the reading is twice the smaller of the two channels' current limits: at most twice either channel's, and equal to twice one of them. |
| `Projection.GetIMaxLimit` | eez_psu_sketch/channel_coupling.cpp:256-261 | In parallel, the reading is twice the smaller of the two channels' maximum current limits: at most twice either channel's, and equal to twice one of them. |
| `Projection.GetIMin` | eez_psu_sketch/channel_coupling.cpp:263-268 | In parallel, the reading is twice the larger of the two channels' current minima: at least twice either channel's, and equal to twice one of them. |
| `Projection.GetIDef` | eez_psu_sketch/channel_coupling.cpp:270-275 | In parallel, when both channels hold the same default current, the reading is twice one channel's: the pair reads as one output of double rating. |
| `Projection.GetIMax` | eez_psu_sketch/channel_coupling.cpp:277-282 | In parallel, the reading is twice the smaller of the two channels' current maxima: at most twice either channel's, and equal to twice one of them. |
| `Projection.GetPowerLimit` | eez_psu_sketch/channel_coupling.cpp:339-344 | In either coupled mode, the reading is twice the smaller of the two channels' power limits: at most twice either channel's, and equal to twice one of them. |
| `Projection.GetPowerMinLimit` | eez_psu_sketch/channel_coupling.cpp:346-351 | The minimum power limit is 0 in every mode, coupled or not. |
| `Projection.GetPowerMaxLimit` | eez_psu_sketch/channel_coupling.cpp:353-358 | In either coupled mode, the reading is twice the smaller of the two channels' total power ratings (ptot): at most twice either channel's, and equal to twice one of them. |
| `Projection.GetPowerDefaultLimit` | eez_psu_sketch/channel_coupling.cpp:360-362 | In either coupled mode, the reading is twice the smaller of the two channels' total power ratings (ptot), since the default power limit is the maximum power limit: at most twice either channel's, and equal to twice one of them. |
| `Projection.GetPowerProtectionLevel` | eez_psu_sketch/channel_coupling.cpp:364-369 | In either coupled mode, when both channels hold the same OPP level, the reading is twice one channel's: the pair reads as one output of double rating. |
| `Projection.GetOppMinLevel` | eez_psu_sketch/channel_coupling.cpp:380-385 | In either coupled mode, the reading is twice the larger of the two channels' minimum OPP levels: at least twice either channel's, and equal to twice one of them. |
| `Projection.GetOppMaxLevel` | eez_psu_sketch/channel_coupling.cpp:387-392 | In either coupled mode, the reading is twice the smaller of the two channels' maximum OPP levels: at most twice either channel's, and equal to twice one of them. |
| `Projection.GetOppDefaultLevel` | eez_psu_sketch/channel_coupling.cpp:394-399 | In either coupled mode, when both channels hold the same default OPP level, the reading is twice one channel's: the pair reads as one output of double rating. |
| `Projection.CoupledReadsAddressFree` | eez_psu_sketch/channel_coupling.cpp:98-399 | In the mode that drives a quantity (series for voltage, parallel for current, either coupled mode for power and OPP), every getter of that quantity gives the same reading whichever channel is addressed. |
| `Projection.UncoupledReadsOwnChannel` | eez_psu_sketch/channel_coupling.cpp:98-399 | Outside the mode that drives a quantity, its getters depend on the addressed channel alone: two systems in the same mode whose addressed channel agrees read the same, whatever the other channels hold. |
| `Projection.ProtectionLevelsShared` | eez_psu_sketch/channel_coupling.cpp:154-159 | Under the pair invariant, the OVP and OPP level readings are the same on both channels of a coupled pair. In parallel the OVP reading is one channel's stored level. |
| `Cascade.SetVoltage` | eez_psu_sketch/channel_coupling.cpp:161-171 | Only the channels the mode reaches change (both channels when coupled, the addressed one otherwise). Sensors, events and every protection setting are untouched. The pair invariant is kept. |
| `Cascade.SetVoltageLimit` | eez_psu_sketch/channel_coupling.cpp:173-183 | As for `Cascade.SetVoltage`. |
| `Cascade.SetCurrent` | eez_psu_sketch/channel_coupling.cpp:284-294 | As for `Cascade.SetVoltage`. |
| `Cascade.SetCurrentLimit` | eez_psu_sketch/channel_coupling.cpp:296-306 | As for `Cascade.SetVoltage`. |
| `Cascade.SetPowerLimit` | eez_psu_sketch/channel_coupling.cpp:371-378 | As for `Cascade.SetVoltage`. |
| `Cascade.SetVoltageRoundTrip` | eez_psu_sketch/channel_coupling.cpp:98-171 | getUSet returns the voltage just set: on every channel in series (each channel carries half), on both channels of the pair in parallel, and on the addressed channel when uncoupled. Only the voltage set point of any channel changes. |
| `Cascade.SetVoltageLimitRoundTrip` | eez_psu_sketch/channel_coupling.cpp:119-183 | getULimit returns the limit just set, in the same cases as the voltage. In series each channel of the pair stores half the limit, so neither channel is rated above its share. Only the voltage limit changes. |
| `Cascade.SetCurrentRoundTrip` | eez_psu_sketch/channel_coupling.cpp:228-294 | getISet returns the current just set: on every channel in parallel (each channel carries half), on the pair in series, and on the addressed channel when uncoupled. Only the current set point changes. |
| `Cascade.SetCurrentLimitRoundTrip` | eez_psu_sketch/channel_coupling.cpp:249-306 | getILimit returns the limit just set, in the same cases as the current. In parallel each channel of the pair stores half the limit, so neither channel is rated above its share. Only the current limit changes. |
| `Cascade.SetPowerLimitRoundTrip` | eez_psu_sketch/channel_coupling.cpp:339-378 | getPowerLimit returns the limit just set. When coupled, each channel of the pair stores half and the reading is the same on every channel. Only the power limit changes. |
| `Protection.SetOvpParameters` | eez_psu_sketch/channel_coupling.cpp:185-199 | Every channel the mode reaches gets its OVP state, level and delay replaced. The level is stored halved when coupled. Nothing else changes, and the pair invariant is kept. |
| `Protection.SetOvpState` | eez_psu_sketch/channel_coupling.cpp:201-208 | Only the OVP state of the reached channels changes. The pair invariant is kept. |
| `Protection.SetOvpLevel` | eez_psu_sketch/channel_coupling.cpp:210-217 | Only the OVP level of the reached channels changes. It is stored halved when coupled. The pair invariant is kept. |
| `Protection.SetOvpDelay` | eez_psu_sketch/channel_coupling.cpp:219-226 | Only the OVP delay of the reached channels changes. The pair invariant is kept. |
| `Protection.SetOcpParameters` | eez_psu_sketch/channel_coupling.cpp:308-319 | Only the OCP state and delay of the reached channels change, unhalved. The pair invariant is kept. |
| `Protection.SetOcpState` | eez_psu_sketch/channel_coupling.cpp:321-328 | Only the OCP state of the reached channels changes. The pair invariant is kept. |
| `Protection.SetOcpDelay` | eez_psu_sketch/channel_coupling.cpp:330-337 | Only the OCP delay of the reached channels changes. The pair invariant is kept. |
| `Protection.SetOppParameters` | eez_psu_sketch/channel_coupling.cpp:401-415 | Only the OPP state, level and delay of the reached channels change. The level is halved when coupled. The pair invariant is kept. |
| `Protection.SetOppState` | eez_psu_sketch/channel_coupling.cpp:417-424 | Only the OPP state of the reached channels changes. The pair invariant is kept. |
| `Protection.SetOppLevel` | eez_psu_sketch/channel_coupling.cpp:426-433 | Only the OPP level of the reached channels changes. It is halved when coupled. The pair invariant is kept. |
| `Protection.SetOppDelay` | eez_psu_sketch/channel_coupling.cpp:435-442 | Only the OPP delay of the reached channels changes. The pair invariant is kept. |
| `Protection.OvpLevelReadBack` | eez_psu_sketch/channel_coupling.cpp:154-217 | getUProtectionLevel after setOvpLevel or setOvpParameters returns the level on every channel in series and on the addressed channel when uncoupled. In parallel it returns HALF the level, because the write halves in both coupled modes but the getter sums only in series. |
| `Protection.OppLevelReadBack` | eez_psu_sketch/channel_coupling.cpp:364-433 | getPowerProtectionLevel after setOppLevel or setOppParameters returns the level: on every channel when coupled, on the addressed channel otherwise. |
| `Protection.SetOtpParameters` | eez_psu_sketch/channel_coupling.cpp:505-520 | Only sensors CH1 and CH2 change when coupled, and only the addressed channel's sensor otherwise. Channels and events are untouched, and the pair invariant is kept. |
| `Protection.SetOtpState` | eez_psu_sketch/channel_coupling.cpp:522-529 | Only the addressed sensor changes, except that CH1 or CH2 while coupled writes both. A non-zero state enables the protection. The pair invariant is kept. |
| `Protection.SetOtpLevel` | eez_psu_sketch/channel_coupling.cpp:531-538 | As for `Protection.SetOtpState`, for the level. |
| `Protection.SetOtpDelay` | eez_psu_sketch/channel_coupling.cpp:540-547 | As for `Protection.SetOtpState`, for the delay. |
| `Protection.OtpCascade` | eez_psu_sketch/channel_coupling.cpp:522-547 | Each sensor-keyed OTP setter stores its value unhalved in every reached sensor and leaves that entry's other fields alone. The reached set is {CH1, CH2} exactly when a pair sensor is addressed while coupled. |
| `Protection.OtpParametersCascade` | eez_psu_sketch/channel_coupling.cpp:505-520 | setOtpParameters leaves both pair sensors equal to the written configuration when coupled, and the addressed channel's sensor equal to it otherwise. |
| `Protection.ClearProtection` | eez_psu_sketch/channel_coupling.cpp:478-485 | Only events are appended. A new event is a clear-protection call exactly when it targets a channel the mode reaches. |
| `Protection.DisableProtection` | eez_psu_sketch/channel_coupling.cpp:487-494 | Only events are appended. A new event is a disable-protection call exactly when it targets a reached channel. |
| `Protection.ClearOtpProtection` | eez_psu_sketch/channel_coupling.cpp:496-503 | Only events are appended. A new event is a sensor clear exactly when it targets a reached sensor: both pair sensors when a pair sensor is addressed while coupled. |
| `OutputControl.OutputEnable` | eez_psu_sketch/channel_coupling.cpp:444-451 | A reached channel differs from before only in its output flag, which becomes `enable`. Every other channel is unchanged, and the pair invariant is kept. |
| `OutputControl.IsLowRippleAllowed` | eez_psu_sketch/channel_coupling.cpp:453-459 | Allowed if and only if every reached channel has the low-ripple feature. |
| `OutputControl.LowRippleEnable` | eez_psu_sketch/channel_coupling.cpp:461-467 | The answer is the AND of the drivers' answers over the reached channels. Only driver calls are logged: channel 1 is called only after channel 0 agreed. |
| `OutputControl.LowRippleAutoEnable` | eez_psu_sketch/channel_coupling.cpp:469-476 | Coupled, the directive is sent to both channels and nothing else changes. Uncoupled, the result is exactly outputEnable on the addressed channel. |
| `OutputControl.LowRippleShortCircuit` | eez_psu_sketch/channel_coupling.cpp:461-464 | When coupled and channel 0 refuses, the result is false and channel 1 is never asked. |
| `Transition.ResetStep` | eez_psu_sketch/channel_coupling.cpp:46-86 | One pass of the reset loop keeps the state well formed and keeps the mode, the channel count and the sensor count. |
| `Transition.Steps` | eez_psu_sketch/channel_coupling.cpp:46-86 | After `n` passes, channels from `n` on and sensors outside CH1 .. CH1+n-1 are unchanged. The mode and the sizes are kept. |
| `Transition.SetType` | eez_psu_sketch/channel_coupling.cpp:30-92 | The transition always leaves a well-formed state. |
| `Transition.SetTypeUnchanged` | eez_psu_sketch/channel_coupling.cpp:30-92 | Setting the current mode succeeds and changes nothing. |
| `Transition.SetTypeFailure` | eez_psu_sketch/channel_coupling.cpp:31-38 | The call fails if and only if the mode would change but there are fewer than two channels or channel 0 or 1 is not OK. A failure leaves the whole state, including the mode, unchanged. |
| `Transition.SetTypeMerges` | eez_psu_sketch/channel_coupling.cpp:59-81 | After a successful change, both channels carry the OR of the two prior protection states and the MIN of the two prior levels and delays, and both pair sensors carry the same merge of their OTP settings. This holds even though the second pass reads values that the first pass already rewrote. |
| `Transition.SetTypeResets` | eez_psu_sketch/channel_coupling.cpp:40-88 | After a successful change the new mode is set and both pair outputs are off. Each pair channel's voltage and current equal the coupling-aware minima of the new mode. Other channels and sensors are untouched. The event log holds each channel's driver resets and then one bus announcement. |
| `Transition.SetTypeKeepsChannelFields` | eez_psu_sketch/channel_coupling.cpp:46-86 | A successful change alters only the output flag, the two set points and the protection settings of the pair channels. Their limits, ranges, readings, power settings, features and health are kept. |
| `Transition.SeriesResetDoublesMinimum` | eez_psu_sketch/channel_coupling.cpp:40-57 | After changing to series, each channel's voltage is twice the larger channel minimum, and getUSet reads twice getUMin. |
| `Transition.ParallelResetDoublesMinimum` | eez_psu_sketch/channel_coupling.cpp:40-57 | After changing to parallel, each channel's current is twice the larger channel current minimum, and getISet reads twice getIMin. |
| `Transition.SetTypeKeepsInv` | eez_psu_sketch/channel_coupling.cpp:30-92 | setType preserves the coupled-pair invariant. |
| `Transition.SetTypeIdempotent` | eez_psu_sketch/channel_coupling.cpp:30-92 | Repeating a successful setType with the same value succeeds and changes nothing. |
| `Session.ApplyChannel` | eez_psu_sketch/channel_coupling.cpp:161-520 | A channel-addressed entry point keeps the state well formed and keeps the mode, CH1 and the channel and sensor counts. |
| `Session.ApplySensor` | eez_psu_sketch/channel_coupling.cpp:496-547 | A sensor-addressed entry point keeps the state well formed and keeps the mode, CH1 and the channel and sensor counts. |
| `Session.Apply` | eez_psu_sketch/channel_coupling.cpp:30-547 | Any single call keeps the state well formed and keeps the channel and sensor counts. Only setType can change the mode. |
| `Session.Run` | eez_psu_sketch/channel_coupling.cpp:30-547 | A sequence of calls keeps the state well formed and keeps the channel and sensor counts. |
| `Session.ApplyChannelFrame` | eez_psu_sketch/channel_coupling.cpp:161-520 | Every channel-addressed entry point keeps the coupled-pair invariant and only appends to the call log. |
| `Session.ApplySensorFrame` | eez_psu_sketch/channel_coupling.cpp:496-547 | Every sensor-addressed entry point keeps the coupled-pair invariant and only appends to the call log. |
| `Session.ApplyFrame` | eez_psu_sketch/channel_coupling.cpp:30-547 | Every call, setType included, keeps the coupled-pair invariant and only appends to the call log. |
| `Session.RunKeepsInv` | eez_psu_sketch/channel_coupling.cpp:30-547 | Across any sequence of calls, while coupled, channels 0 and 1 carry one protection configuration, and CH1 and CH2 carry one OTP configuration. |
| `Session.RunExtendsLog` | eez_psu_sketch/channel_coupling.cpp:30-547 | Across any sequence of calls, the call log only grows: earlier entries stay, in order, at its head. |
| `Session.RunKeepsMode` | eez_psu_sketch/channel_coupling.cpp:28-92 | `g_channelCoupling` is written only by setType: a sequence of calls without setType ends in the mode it started in. |
| `ChannelCoupling.Coupling.constructor` | eez_psu_sketch/channel_coupling.cpp:28 | The layer starts uncoupled with an empty call log and satisfies the invariant. |
| `ChannelCoupling.Coupling.GetType` | eez_psu_sketch/channel_coupling.cpp:94-96 | Returns the current mode. |
| `ChannelCoupling.Coupling.SetType` | eez_psu_sketch/channel_coupling.cpp:30-92 | The in-place transition, whose reset loop has the invariant `Abstract() == Steps(start, i)`, yields exactly the state and flag of `Transition.SetType`, and keeps `Valid()`. |
| `ChannelCoupling.Coupling.ResetPass` | eez_psu_sketch/channel_coupling.cpp:46-86 | One in-place pass equals `Transition.ResetStep` on the prior state. |
| `ChannelCoupling.Coupling.DisableChannel` | eez_psu_sketch/channel_coupling.cpp:47-54 | Only channel `i`'s output flag changes. The remote-programming and low-ripple resets are logged for exactly the features the channel has. |
| `ChannelCoupling.Coupling.ResetSetPoints` | eez_psu_sketch/channel_coupling.cpp:56-57 | Channel `i`'s voltage and current become the current-mode minima read before the writes. |
| `ChannelCoupling.Coupling.MergeProtection` | eez_psu_sketch/channel_coupling.cpp:59-68 | Channel `i`'s protection becomes the OR/MIN merge of the pair's current settings, and no other channel changes. |
| `ChannelCoupling.Coupling.MergeSensor` | eez_psu_sketch/channel_coupling.cpp:70-80 | Sensor `ch1 + i` becomes the OR/MIN merge of the current CH1 and CH2 settings, and no other sensor changes. |
| `ChannelCoupling.Coupling.SetVoltage` | eez_psu_sketch/channel_coupling.cpp:161-171 | The in-place write yields `Cascade.SetVoltage` of the prior state and keeps `Valid()`. |
| `ChannelCoupling.Coupling.SetVoltageLimit` | eez_psu_sketch/channel_coupling.cpp:173-183 | The in-place write yields `Cascade.SetVoltageLimit`. |
| `ChannelCoupling.Coupling.SetCurrent` | eez_psu_sketch/channel_coupling.cpp:284-294 | The in-place write yields `Cascade.SetCurrent`. |
| `ChannelCoupling.Coupling.SetCurrentLimit` | eez_psu_sketch/channel_coupling.cpp:296-306 | The in-place write yields `Cascade.SetCurrentLimit`. |
| `ChannelCoupling.Coupling.SetPowerLimit` | eez_psu_sketch/channel_coupling.cpp:371-378 | The in-place write yields `Cascade.SetPowerLimit`. |
| `ChannelCoupling.Coupling.SetOvpParameters` | eez_psu_sketch/channel_coupling.cpp:185-199 | The in-place write yields `Protection.SetOvpParameters` and keeps `Valid()`. |
| `ChannelCoupling.Coupling.SetOvpState` | eez_psu_sketch/channel_coupling.cpp:201-208 | The in-place write yields `Protection.SetOvpState`. |
| `ChannelCoupling.Coupling.SetOvpLevel` | eez_psu_sketch/channel_coupling.cpp:210-217 | The in-place write yields `Protection.SetOvpLevel`. |
| `ChannelCoupling.Coupling.SetOvpDelay` | eez_psu_sketch/channel_coupling.cpp:219-226 | The in-place write yields `Protection.SetOvpDelay`. |
| `ChannelCoupling.Coupling.SetOcpParameters` | eez_psu_sketch/channel_coupling.cpp:308-319 | The in-place write yields `Protection.SetOcpParameters`. |
| `ChannelCoupling.Coupling.SetOcpState` | eez_psu_sketch/channel_coupling.cpp:321-328 | The in-place write yields `Protection.SetOcpState`. |
| `ChannelCoupling.Coupling.SetOcpDelay` | eez_psu_sketch/channel_coupling.cpp:330-337 | The in-place write yields `Protection.SetOcpDelay`. |
| `ChannelCoupling.Coupling.SetOppParameters` | eez_psu_sketch/channel_coupling.cpp:401-415 | The in-place write yields `Protection.SetOppParameters`. |
| `ChannelCoupling.Coupling.SetOppState` | eez_psu_sketch/channel_coupling.cpp:417-424 | The in-place write yields `Protection.SetOppState`. |
| `ChannelCoupling.Coupling.SetOppLevel` | eez_psu_sketch/channel_coupling.cpp:426-433 | The in-place write yields `Protection.SetOppLevel`. |
| `ChannelCoupling.Coupling.SetOppDelay` | eez_psu_sketch/channel_coupling.cpp:435-442 | The in-place write yields `Protection.SetOppDelay`. |
| `ChannelCoupling.Coupling.OutputEnable` | eez_psu_sketch/channel_coupling.cpp:444-451 | The in-place write yields `OutputControl.OutputEnable`. |
| `ChannelCoupling.Coupling.IsLowRippleAllowed` | eez_psu_sketch/channel_coupling.cpp:453-459 | Allowed if and only if every channel the mode reaches has the low-ripple feature. Nothing changes. |
| `ChannelCoupling.Coupling.LowRippleEnable` | eez_psu_sketch/channel_coupling.cpp:461-467 | Yields the state and answer of `OutputControl.LowRippleEnable`, including the short circuit. |
| `ChannelCoupling.Coupling.LowRippleAutoEnable` | eez_psu_sketch/channel_coupling.cpp:469-476 | Yields `OutputControl.LowRippleAutoEnable`. |
| `ChannelCoupling.Coupling.ClearProtection` | eez_psu_sketch/channel_coupling.cpp:478-485 | Yields `Protection.ClearProtection`. |
| `ChannelCoupling.Coupling.DisableProtection` | eez_psu_sketch/channel_coupling.cpp:487-494 | Yields `Protection.DisableProtection`. |
| `ChannelCoupling.Coupling.ClearOtpProtection` | eez_psu_sketch/channel_coupling.cpp:496-503 | Yields `Protection.ClearOtpProtection`. |
| `ChannelCoupling.Coupling.SetOtpParameters` | eez_psu_sketch/channel_coupling.cpp:505-520 | The six sequential sensor writes yield `Protection.SetOtpParameters` and keep `Valid()`. |
| `ChannelCoupling.Coupling.SetOtpState` | eez_psu_sketch/channel_coupling.cpp:522-529 | Yields `Protection.SetOtpState`. |
| `ChannelCoupling.Coupling.SetOtpLevel` | eez_psu_sketch/channel_coupling.cpp:531-538 | Yields `Protection.SetOtpLevel`. |
| `ChannelCoupling.Coupling.SetOtpDelay` | eez_psu_sketch/channel_coupling.cpp:540-547 | Yields `Protection.SetOtpDelay`. |

## Left out

- Projection.GetUSet: the contract gives the coupled reading only for a pair with equal voltage set points. In general the reading is their sum, which is the function's own body and is not restated as a contract.
- Projection.GetUMon: the contract gives the coupled reading only for a pair with equal measured voltages. In general the reading is their sum, which is the function's own body and is not restated as a contract.
- Projection.GetUMonDac: the contract gives the coupled reading only for a pair with equal DAC voltage readings. In general the reading is their sum, which is the function's own body and is not restated as a contract.
- Projection.GetUDef: the contract gives the coupled reading only for a pair with equal default voltages. In general the reading is their sum, which is the function's own body and is not restated as a contract.
- Projection.GetUProtectionLevel: the contract gives the coupled reading only for a pair with equal OVP levels. In general the reading is their sum, which is the function's own body and is not restated as a contract.
- Projection.GetISet: the contract gives the coupled reading only for a pair with equal current set points. In general the reading is their sum, which is the function's own body and is not restated as a contract.
- Projection.GetIMon: the contract gives the coupled reading only for a pair with equal measured currents. In general the reading is their sum, which is the function's own body and is not restated as a contract.
- Projection.GetIMonDac: the contract gives the coupled reading only for a pair with equal DAC current readings. In general the reading is their sum, which is the function's own body and is not restated as a contract.
- Projection.GetIDef: the contract gives the coupled reading only for a pair with equal default currents. In general the reading is their sum, which is the function's own body and is not restated as a contract.
- Projection.GetPowerProtectionLevel: the contract gives the coupled reading only for a pair with equal OPP levels. In general the reading is their sum, which is the function's own body and is not restated as a contract.
- Projection.GetOppDefaultLevel: the contract gives the coupled reading only for a pair with equal default OPP levels. In general the reading is their sum, which is the function's own body and is not restated as a contract.
- Projection getters: outside the mode that drives a quantity, no getter contract names the value returned (the addressed channel's own field). `Projection.UncoupledReadsOwnChannel` states instead that the reading depends on that channel alone.
- The simulator code in setType (loading and restoring the simulated load)
  and `setLoadEnabled`/`setLoad` (channel_coupling.cpp:42-44, 82-85,
  549-567): simulator only.
- The internals of the drivers:
  - `Channel::outputEnable`, `remoteProgrammingEnable`, `lowRippleEnable`,
    `lowRippleAutoEnable`, `clearProtection` and `disableProtection`;
  - the temperature-sensor `clearProtection`;
  - the bus call `bp::switchChannelCoupling`.

  Each is recorded as an event in the call log. The result of the
  driver's `lowRippleEnable` is an input (`answers`). An output switch is
  modelled as the channel's output flag.
- The channel's own setters (`Channel::setVoltage`, `setCurrent`, the limit
  setters and `setPowerLimit`) are modelled as plain stores of the value.
  Any DAC writes, clamping or persistence inside the Channel class are not
  part of this model.
- `isOk` and the feature bits are fields of the channel record. How the
  firmware computes them is not part of this model.
- Protection states are booleans. `setOvpState`, `setOcpState`,
  `setOppState` and the `*Parameters` setters take a `bool` where the
  source passes an `int` into a flag field. The width of that field is
  declared in `persist_conf.h`, which is not part of this model. The OTP
  setters do model the source's `state ? true : false` conversion from
  `int`.
- Floating point: values are `real`, so the rounding of `float` halving,
  summing and doubling is not modelled.
- Concurrency: calls are atomic, and there are no interrupts between the
  writes of a cascade.
- `CH_NUM` and the numeric sensor indices: the channel count is the length
  of the channel array, and CH1 is a parameter `ch1`, with CH2 = `ch1 + 1`
  as the source's `CH1 + channel.index - 1` indexing requires.
- `fan.cpp`, `scpi_debug.cpp`, `gui_page_sys_settings.h` and `UTFT.h` are
  callers or unrelated to the coupling layer and are not part of this
  model.
