# PFC boost controller core, modelled in Dafny

This project models the control core of a single-phase power-factor-correction
(PFC) boost converter, `project/pfc/pfc.c`. The ADC interrupt
(`PFC_ADCInterrupt`) runs once every control period. It latches the DC-bus
voltage, the AC input voltage and the inductor current, and runs one cycle of
`PFC_StateMachine`. It then writes the resulting duty count to the PWM.

Each cycle first runs the estimators:

- a block average of the DC-bus voltage;
- a block average of the AC input, which becomes the AC offset;
- rectification of the AC input;
- a block mean-square of the rectified input.

The cycle then dispatches on the phase: INIT, OFFSET_MEAS, WAIT_1CYCLE,
CTRL_RUN or FAULT.

- **CTRL_RUN** checks the three trip conditions. These are output
  over-voltage, input under-voltage and input over-voltage, and each adds its
  code to the 16-bit fault mask. With no fault, CTRL_RUN runs the control
  work:
  - the soft start of the voltage reference;
  - the voltage loop at a divided rate, with a gain schedule and an optional
    power-balance current reference;
  - the ideal boost duty ratio;
  - the current loop, with its optional discontinuous-conduction sample
    correction and the duty clamp;
  - the standby override.
- **FAULT** holds the duty at 0 with the outputs off. It clears the input
  codes once their recovery thresholds are met, and returns to CTRL_RUN when
  the mask is empty.

The project has three layers:

- `fixed_point.dfy`, `estimators.dfy` and `fault_mask.dfy` hold the 16-bit
  integer primitives of the target, the two windowed estimators and the fault
  mask bit by bit. The fault mask includes its carrying `+=`.
- `pfc_spec.dfy` models the aggregate `PFC_T` as a datatype. Each routine of
  `pfc.c` is a function from the aggregate before the routine to the
  aggregate after it. `Tick` is one interrupt and `Run` a sequence of them.
- `pfc_control.dfy` is the class `Pfc`. Its methods perform the routines
  statement by statement, in place, on the aggregate. Each method is proved
  to leave exactly the aggregate the matching function describes.

`pfc_properties.dfy` proves what the controller promises:

- an invariant every cycle keeps, from power-on onward;
- the transitions of every phase;
- the trip and recovery behaviour of the fault mask;
- the cadence of the soft start and of the voltage-loop divider;
- the bounds of the current loop.

`estimators.dfy` proves which samples each emitted average and mean-square is
computed from.

The header constants (`pfc.h`) are a `Config` value. `ValidConfig` states
what the model assumes of them: non-empty windows, a soft-start step that
stays in int16, ordered duty limits and three distinct single-bit fault
codes.

## Model

| member | source | states |
|---|---|---|
| FixedPoint.Wrap16 | project/pfc/pfc.c:530 | the `(int16_t)` conversion is congruent to its argument modulo 2^16 and is the identity in range |
| FixedPoint.WrapU16 | project/pfc/pfc.c:426 | the `uint16_t` store of the duty count is congruent modulo 2^16 and the identity in range |
| FixedPoint.Shr | project/pfc/pfc.c:426 | the arithmetic right shift brackets its argument between `r * 2^n` and `(r + 1) * 2^n` |
| FixedPoint.TruncDiv | project/pfc/pfc.c:583 | `__builtin_divsd` has the quotient of the magnitudes as its magnitude and the sign of the true quotient |
| FixedPoint.DivF | project/pfc/pfc.c:213-214 | `__builtin_divf` is congruent modulo 2^16 to the truncated Q15 quotient `num * 2^15 / den`, equal to it when `\|num\| < \|den\|`, non-negative for 0 <= num < den, and 0 for num = 0 |
| FixedPoint.DivFExact | project/pfc/pfc.c:213-214 | for `\|num\| < \|den\|`, `__builtin_divf` is the exact truncated Q15 quotient, strictly inside (-1, 1) |
| Estimators.SumBounds | project/pfc/pfc.c:579 | a sum of n int16 samples lies in [-0x8000 n, 0x7FFF n] |
| Estimators.AverageStep | project/pfc/pfc.c:577-588 | `PFC_Average` keeps the window length and scaler, and always leaves the count below the window length |
| Estimators.AverageFits | project/pfc/pfc.c:583 | the truncated average of int16 samples fits in int16, so the cast loses nothing |
| Estimators.AverageWindow | project/pfc/pfc.c:577-588 | from a restarted window, the first `sampleLimit - 1` inputs only accumulate; the `sampleLimit`-th emits their exact truncated average, raises the ready flag and restarts |
| Estimators.AverageRunAppend | project/pfc/pfc.c:577-588 | running the averager on `xs + ys` is running it on `xs` and then on `ys` |
| Estimators.AverageLatestWindow | project/pfc/pfc.c:577-588 | after any number of full windows and a partial one, the output is the average of the most recent full window and the sum and count are those of the partial one |
| Estimators.Averager.Update | project/pfc/pfc.c:577-588 | the in-place update of a `PFC_AVG_T` through its pointer is `AverageStep` of the old record |
| Estimators.Averager.constructor | project/pfc/pfc.c:577 | a zero-initialised `PFC_AVG_T` |
| Estimators.SquareTerm | project/pfc/pfc.c:552 | the term `(int16_t)((x * x) >> 15)` is `x*x/2^15` in [0, 0x7FFE], except for x = -0x8000, where it wraps to -0x8000 |
| Estimators.SquareBound | project/pfc/pfc.c:552 | the square of an int16 other than -0x8000 lies in [0, 0x7FFF^2] |
| Estimators.RmsStep | project/pfc/pfc.c:550-564 | `PFC_SquaredRMSCalculate` keeps the window length and leaves the count at most the window length |
| Estimators.RmsWindow | project/pfc/pfc.c:550-564 | from a restarted window, `sampleLimit` calls only accumulate; call `sampleLimit + 1` emits the sum of all `sampleLimit + 1` terms divided by `sampleLimit`, raises the flag and restarts |
| Estimators.RmsRunAppend | project/pfc/pfc.c:550-564 | running the mean-square on `xs + ys` is running it on `xs` and then on `ys` |
| Estimators.RmsLatestWindow | project/pfc/pfc.c:550-564 | after any number of full windows of `sampleLimit + 1` inputs and a partial one, the output is the quotient of the most recent full window |
| Estimators.SquareSumBounds | project/pfc/pfc.c:552 | without -0x8000 inputs, the running sum of terms lies in [0, 0x7FFE n] |
| Estimators.RmsOutputInRange | project/pfc/pfc.c:559 | for any window length and inputs other than -0x8000, the quotient of the term sum is non-negative and, whenever it fits in int16, is exactly what the divide and cast emit; for a window length of at least 0x4000 it always fits |
| Estimators.RmsLatestOutput | project/pfc/pfc.c:550-564 | after full windows and a partial one, with no -0x8000 input in the latest full window, the held mean-square is that window's non-negative quotient whenever the quotient fits in int16 (always for a window length of at least 0x4000) |
| Estimators.RmsOutputCanWrap | project/pfc/pfc.c:559 | with a window length of 1, two full-scale inputs give the quotient 0xFFFC, outside int16 (a divide overflow on the target), which the model's narrowing turns into -4 |
| Estimators.RmsEstimator.Update | project/pfc/pfc.c:550-564 | the in-place update of a `PFC_RMS_SQUARE_T` is `RmsStep` of the old record |
| Estimators.RmsEstimator.constructor | project/pfc/pfc.c:550 | a zero-initialised `PFC_RMS_SQUARE_T` |
| FaultMask.None | project/pfc/pfc.c:319 | `PFC_FAULT_NONE` has no bit set and stands for 0 |
| FaultMask.Code | project/pfc/pfc.c:607 | a fault code `1 << k` has bit k and no other, and stands for 2^k |
| FaultMask.ValZero | project/pfc/pfc.c:319 | a string with no bit set stands for 0 |
| FaultMask.ValSingle | project/pfc/pfc.c:607 | a string whose only set bit is bit k stands for 2^k |
| FaultMask.Plus | project/pfc/pfc.c:607 | the mask after `+=` stands for the sum of the two masks modulo 2^16, as `uint16_t` addition gives |
| FaultMask.RippleAdds | project/pfc/pfc.c:607 | the ripple-carry adder produces the sum of its operands and the carry in, modulo 2 to the width |
| FaultMask.AndNot | project/pfc/pfc.c:236 | `m & ~c` holds exactly the bits of m that are not in c |
| FaultMask.Union3 | project/pfc/pfc.c:602-619 | the mask holds exactly the bits whose conditions hold |
| FaultMask.RippleDisjoint | project/pfc/pfc.c:607 | adding bit strings with no common bit is their bitwise union |
| FaultMask.PlusFreshBit | project/pfc/pfc.c:607 | `+=` of a code whose bit is clear sets that bit and changes no other |
| FaultMask.AddIf | project/pfc/pfc.c:602-619 | a conditional `mask += 1 << k` leaves the mask alone when its condition fails, otherwise adds 2^k modulo 2^16, which sets bit k and no other when bit k was clear |
| FaultMask.ClearIf | project/pfc/pfc.c:234-241 | a conditional `mask &= ~(1 << k)` clears bit k exactly when its condition holds and keeps every other bit |
| FaultMask.AddFromNone | project/pfc/pfc.c:602-619 | from an empty mask, three conditional `+=` of distinct codes give exactly the codes whose conditions hold |
| FaultMask.EmptyIffNoCode | project/pfc/pfc.c:242 | a mask of known codes equals `PFC_FAULT_NONE` iff none of the three code bits is set |
| FaultMask.RippleDouble | project/pfc/pfc.c:607 | doubling a single-bit string moves its bit up one place |
| FaultMask.RippleZeroCarry | project/pfc/pfc.c:607 | adding zeros with a carry in sets bit 0 only |
| FaultMask.RippleZero | project/pfc/pfc.c:607 | adding zeros without a carry gives zeros |
| FaultMask.AddCarries | project/pfc/pfc.c:607 | `+=` of a code already in the mask carries into the next bit and removes the code |
| PfcSpec.ZeroData | project/pfc/pfc.c:77 | the static aggregate `pfcParam` starts zeroed: phase INIT, no fault code, outputs off, duty, reference, sample correction, window counts and integrators 0 |
| PfcSpec.ParamsInit | project/pfc/pfc.c:292-321 | `PFC_ParamsInit` makes every window length non-zero for valid constants, sets the INIT phase, the empty mask and sample correction off, and leaves the readings, duty, outputs, current reference and emitted estimates alone |
| PfcSpec.ResetParams | project/pfc/pfc.c:335-356 | `PFC_ResetParams` restarts all three windows, clears the DC and mean-square ready flags, both integrators and the duty, and keeps the settings, phase, mask, emitted estimates and the AC ready flag |
| PfcSpec.SoftStart | project/pfc/pfc.c:188-203 | below the setpoint a soft-start step never lowers the reference and keeps it below setpoint + RAMP_COUNT; at or above the setpoint it sets it to the setpoint; a moving reference below the setpoint reloads the counter |
| PfcSpec.Rectify | project/pfc/pfc.c:528-537 | `PFC_SignalRectification` is the magnitude of the narrowed difference `vac - offsetVac`, negative exactly when that difference narrows to -0x8000, and `\|vac - offsetVac\|` whenever that fits |
| PfcSpec.ClampReference | project/pfc/pfc.c:508-515 | the current reference ends in [0, Q15(0.999)] = [0, 32734]: unchanged in range, the top above it, 0 below it |
| PfcSpec.VoltageKi | project/pfc/pfc.c:462-469 | for an error beyond ±700 the integral gain is `KI_V` halved (floor), otherwise `KI_V` |
| PfcSpec.PowerBalanceReference | project/pfc/pfc.c:478-506 | the power-balance reference is 0 when the voltage loop's output or the rectified input is 0 (zero crossings give zero current), and non-negative for non-negative factors whose shifted product is below the mean-square and a `KMUL` of at most 2^12 |
| PfcSpec.CurrentRefGenerate | project/pfc/pfc.c:452-516 | `PFC_CurrentRefGenerate` writes none of the settings and leaves the phase alone |
| PfcSpec.BoostDutyRatio | project/pfc/pfc.c:207-215 | for a rectified input in (0, vdc] the ideal duty ratio is the exact truncated Q15 fraction `(vdc - vac)/vdc`, in [0, 1) |
| PfcSpec.CurrentSampleCorrection | project/pfc/pfc.c:370-390 | for a non-negative current sample the corrected average current lies in [0, sample]; it is the sample scaled by the exact truncated Q15 ratio `piOutput / boostDutyRatio` when 0 < piOutput < boostDutyRatio, scaled by Q15(0.9999) = 32764 when the ideal duty ratio is not positive, and the sample itself when the ratio is in (-1, 0] |
| PfcSpec.ScaleDown | project/pfc/pfc.c:381-384 | scaling a non-negative sample by a positive Q15 ratio never exceeds the sample and stays non-negative |
| PfcSpec.RawDuty | project/pfc/pfc.c:426 | for a non-negative PI output and period the duty count never exceeds the period `PFC_LOOPTIME_TCY` |
| PfcSpec.ClampDuty | project/pfc/pfc.c:426-439 | the duty ends within [PFC_MIN_DUTY, PFC_MAX_DUTY]: the raw count in range, the top above it |
| PfcSpec.CurrentControlLoop | project/pfc/pfc.c:402-440 | `PFC_CurrentControlLoop` writes none of the settings and leaves the phase alone |
| PfcSpec.FaultCheck | project/pfc/pfc.c:602-619 | `PFC_FaultCheck` changes only the mask |
| PfcSpec.Estimate | project/pfc/pfc.c:128-140 | the estimators keep every window length non-zero and write no setting |
| PfcSpec.InitPhase | project/pfc/pfc.c:144-152 | INIT writes no setting |
| PfcSpec.OffsetMeasPhase | project/pfc/pfc.c:153-167 | OFFSET_MEAS writes no setting |
| PfcSpec.Wait1CyclePhase | project/pfc/pfc.c:168-176 | WAIT_1CYCLE writes no setting |
| PfcSpec.RunControl | project/pfc/pfc.c:185-223 | the fault-free control work writes no setting and leaves the phase alone |
| PfcSpec.OffsetCorrect | project/pfc/pfc.c:179-181 | the offset correction writes no setting and leaves the phase alone |
| PfcSpec.CtrlRunPhase | project/pfc/pfc.c:177-229 | CTRL_RUN writes no setting |
| PfcSpec.FaultPhase | project/pfc/pfc.c:230-250 | FAULT writes no setting |
| PfcSpec.Dispatch | project/pfc/pfc.c:142-254 | no phase writes a setting |
| PfcSpec.StateMachine | project/pfc/pfc.c:122-255 | a state-machine cycle keeps the window lengths non-zero and writes no setting |
| PfcSpec.Tick | project/pfc/pfc.c:92-109 | an interrupt keeps the window lengths non-zero and writes no setting |
| PfcSpec.Run | project/pfc/pfc.c:92-109 | any sequence of interrupts keeps the window lengths non-zero and writes no setting |
| PfcProperties.InitialInvariant | project/pfc/pfc.c:268-321 | `PFC_ParamsInit` on zeroed storage establishes the invariant, in INIT, with an empty mask and the outputs off |
| PfcProperties.EstimateKeepsInv | project/pfc/pfc.c:128-140 | the estimators keep the invariant, the phase and the mask |
| PfcProperties.InitKeepsInv | project/pfc/pfc.c:144-152 | INIT keeps the invariant |
| PfcProperties.OffsetMeasKeepsInv | project/pfc/pfc.c:153-167 | OFFSET_MEAS keeps the invariant |
| PfcProperties.Wait1CycleKeepsInv | project/pfc/pfc.c:168-176 | WAIT_1CYCLE keeps the invariant |
| PfcProperties.RunControlKeepsInv | project/pfc/pfc.c:185-223 | the fault-free control work keeps the invariant, given PI outputs in their [0, INT16_MAX] clamp |
| PfcProperties.CtrlRunKeepsInv | project/pfc/pfc.c:177-229 | CTRL_RUN keeps the invariant, including FAULT exactly when the mask is non-empty |
| PfcProperties.FaultKeepsInv | project/pfc/pfc.c:230-250 | FAULT keeps the invariant |
| PfcProperties.StateMachineKeepsInv | project/pfc/pfc.c:122-255 | every state-machine cycle keeps the invariant |
| PfcProperties.TickKeepsInv | project/pfc/pfc.c:92-109 | every interrupt keeps the invariant |
| PfcProperties.RunKeepsInv | project/pfc/pfc.c:92-109 | any sequence of interrupts keeps the invariant |
| PfcProperties.ReachableStates | project/pfc/pfc.c:92-109 | from power-on, after any cycles: the duty is 0 or within the duty limits, the current reference within [0, Q15(0.999)] = [0, 32734], CTRL_RUN has an empty mask and the outputs on, and FAULT holds exactly when the mask is non-empty |
| PfcProperties.FaultCheckFromClear | project/pfc/pfc.c:602-619 | from an empty mask the fault check sets the mask to exactly the union of the tripped codes and changes nothing else |
| PfcProperties.TripMaskCodes | project/pfc/pfc.c:602-619 | each code is in the trip mask iff its condition holds, the trip mask is non-empty iff some condition holds, and it holds only known codes |
| PfcProperties.FaultCheckQuiet | project/pfc/pfc.c:602-619 | with no trip condition the fault check changes nothing |
| PfcProperties.RepeatedTripCarries | project/pfc/pfc.c:605-608 | re-adding an over-voltage code already in the mask carries into the next code's bit and clears the over-voltage bit |
| PfcProperties.DispatchKeepsEstimates | project/pfc/pfc.c:142-254 | no phase changes the estimator outputs or the rectified input |
| PfcProperties.EstimatorsRunEveryCycle | project/pfc/pfc.c:122-140 | whatever the phase, a cycle's estimator outputs are those of one step of each estimator on this cycle's readings |
| PfcProperties.InitCycle | project/pfc/pfc.c:144-152 | INIT restarts the windows, clears the DC and mean-square ready flags, the peak, both integrators and the duty, turns the outputs off and moves to OFFSET_MEAS; the AC ready flag and the mask are kept |
| PfcProperties.OffsetMeasCycle | project/pfc/pfc.c:153-167 | OFFSET_MEAS moves to WAIT_1CYCLE iff the calibration is done and the AC average is ready, then seeding the voltage reference from the DC average; otherwise it stays with the voltage loop untouched |
| PfcProperties.Wait1CycleCycle | project/pfc/pfc.c:168-176 | WAIT_1CYCLE moves to CTRL_RUN with the outputs on iff the mean-square is ready, otherwise changes nothing |
| PfcProperties.CtrlRunCycle | project/pfc/pfc.c:177-229 | with an empty mask, CTRL_RUN enters FAULT iff a trip condition holds, the mask becomes the tripped codes, and on the detecting cycle the duty, outputs and both loops are untouched |
| PfcProperties.FaultCycleCodes | project/pfc/pfc.c:230-241 | in FAULT the duty is 0, the over-voltage code is kept, each input code is cleared iff its recovery threshold is met, and no bit is added |
| PfcProperties.FaultCycleExit | project/pfc/pfc.c:242-249 | FAULT returns to CTRL_RUN iff the mask became empty, then with both integrators zeroed, the reference reseeded from the DC average and the outputs on; otherwise it stays in FAULT with the outputs off |
| PfcProperties.FaultRecovery | project/pfc/pfc.c:230-250 | FAULT is left iff the over-voltage code is not set and every set input code meets its recovery threshold |
| PfcProperties.FaultKeepsKnown | project/pfc/pfc.c:230-241 | FAULT adds no unknown code to the mask |
| PfcProperties.OtherCycle | project/pfc/pfc.c:251-252 | a state value outside the five phases is left unchanged by the dispatch |
| PfcProperties.OverVoltageLatches | project/pfc/pfc.c:230-250 | once the output over-voltage code is set in FAULT, every later cycle stays in FAULT with the code set, the duty 0 and the outputs off |
| PfcProperties.SoftStartStep | project/pfc/pfc.c:188-203 | below the setpoint the reference steps up by RAMP_COUNT when the counter is 0 (which reloads it), else the counter counts down; at or above the setpoint the reference is set to it; the counter stays within RAMP_RATE |
| PfcProperties.SoftStartHolds | project/pfc/pfc.c:188-203 | below the setpoint, n steps with a counter of k ≥ n leave the reference and count the counter down by n |
| PfcProperties.SoftStartCadence | project/pfc/pfc.c:188-203 | below the setpoint, a counter at k raises the reference by exactly RAMP_COUNT after k + 1 steps and reloads the counter |
| PfcProperties.SoftStartOvershoot | project/pfc/pfc.c:188-203 | a step can overshoot the setpoint by up to RAMP_COUNT - 1, and the next step sets it back to the setpoint |
| PfcProperties.ZeroCrossingRatio | project/pfc/pfc.c:213-214 | at a zero crossing the ideal-duty divide `vdc / vdc` is outside the Q15 range and the model's narrowing gives -0x8000 |
| PfcProperties.CorrectionNearOne | project/pfc/pfc.c:372-388 | with a non-positive ideal duty ratio the sample is scaled by Q15(0.9999): 10000 becomes 9998 |
| PfcProperties.CurrentRefGenerateEffect | project/pfc/pfc.c:452-516 | once the divider passes VOLTAGE_LOOP_EXE_RATE, the voltage loop runs on this cycle's error with the scheduled gain and the divider restarts; otherwise the divider counts up with the loop untouched; the reference always ends in range |
| PfcProperties.DividerCounts | project/pfc/pfc.c:458-476 | until the divider passes VOLTAGE_LOOP_EXE_RATE, each cycle counts it up and leaves the voltage loop alone |
| PfcProperties.DividerFires | project/pfc/pfc.c:458-476 | from a restarted divider, the voltage loop runs first on cycle VOLTAGE_LOOP_EXE_RATE + 2 and restarts the divider |
| PfcProperties.CurrentLoopBounds | project/pfc/pfc.c:402-440 | a negative sample becomes 1, the average current is in [0, iL] (iL itself without correction), the duty is within the limits (the raw count when it is in range), and the integrator is forced to KI_I_INTGRAL_OUT_MAX exactly when the raw count is above the top |
| PfcProperties.RawDutyProportional | project/pfc/pfc.c:426 | for a non-negative output and period the duty count is `output * PFC_LOOPTIME_TCY / 2^15`, at most the period |
| PfcProperties.RunControlKeeps | project/pfc/pfc.c:185-223 | the control work leaves the phase, mask, outputs and estimates alone |
| PfcProperties.RunControlCounters | project/pfc/pfc.c:185-223 | the soft-start and divider counters stay within their reload values, and the voltage loop's output is the previous one or this cycle's update |
| PfcProperties.RunControlCycle | project/pfc/pfc.c:185-223 | the soft start sets the reference, the current reference is in range, the current sample is non-negative, and the duty is 0 with the current integrator zeroed below PFC_MIN_CURRENTREF_PEAK_Q15, else within the duty limits |
| PfcControl.Pfc.constructor | project/pfc/pfc.c:92-109 | the controller starts from zeroed static storage |
| PfcControl.Pfc.ServiceInit | project/pfc/pfc.c:268-279 | `PFC_ServiceInit` runs `PFC_ParamsInit` in place; from zeroed storage this establishes the invariant in INIT, with an empty mask and the outputs off |
| PfcControl.Pfc.ParamsInit | project/pfc/pfc.c:292-321 | the in-place `PFC_ParamsInit` leaves exactly `PfcSpec.ParamsInit` of the old aggregate |
| PfcControl.Pfc.ResetParams | project/pfc/pfc.c:335-356 | the in-place `PFC_ResetParams` leaves exactly `PfcSpec.ResetParams` of the old aggregate |
| PfcControl.Pfc.FaultCheck | project/pfc/pfc.c:602-619 | the in-place `PFC_FaultCheck` leaves exactly `PfcSpec.FaultCheck` of the old aggregate |
| PfcControl.Pfc.CurrentRefGenerate | project/pfc/pfc.c:452-516 | the in-place `PFC_CurrentRefGenerate` leaves exactly `PfcSpec.CurrentRefGenerate` of the old aggregate |
| PfcControl.Pfc.CurrentControlLoop | project/pfc/pfc.c:402-440 | the in-place `PFC_CurrentControlLoop` leaves exactly `PfcSpec.CurrentControlLoop` of the old aggregate |
| PfcControl.Pfc.Estimate | project/pfc/pfc.c:128-140 | the in-place estimator calls leave exactly `PfcSpec.Estimate` of the old aggregate |
| PfcControl.Pfc.CtrlRunPhase | project/pfc/pfc.c:177-229 | the CTRL_RUN case, with its next phase returned for the local `pfcState`, agrees with `PfcSpec.CtrlRunPhase` |
| PfcControl.Pfc.FaultPhase | project/pfc/pfc.c:230-250 | the FAULT case, with its next phase returned, agrees with `PfcSpec.FaultPhase` |
| PfcControl.Pfc.SoftStartStep | project/pfc/pfc.c:188-203 | the in-place soft start changes only the voltage reference and the ramp counter, as `SoftStart` says |
| PfcControl.Pfc.RunControl | project/pfc/pfc.c:185-223 | the in-place fault-free control work leaves exactly `PfcSpec.RunControl` of the old aggregate |
| PfcControl.Pfc.StateMachine | project/pfc/pfc.c:122-255 | the in-place `PFC_StateMachine` leaves exactly `PfcSpec.StateMachine` of the old aggregate |
| PfcControl.Pfc.Tick | project/pfc/pfc.c:92-109 | the interrupt leaves `PfcSpec.Tick` of the old aggregate and writes its duty to the PWM; from an invariant state the invariant is kept and the PWM duty is 0 or within [PFC_MIN_DUTY, PFC_MAX_DUTY] |

## Left out

- Hardware access is not modelled. This covers the ADC buffers, the PWM
  registers, the enable pin, the LED and the interrupt flag. The ADC readings
  are a `Sample` parameter of `Tick`. The PWM duty write is its return value.
  `HAL_PFCPWMEnableOutputs` and `HAL_PFCPWMDisableOutputs` are the
  `outputsEnabled` field.
- The PI controller `PFC_PIController` and the current-offset routines
  `PFC_MeasureCurrentInit` and `PFC_MeasureCurrentOffset` are not part of
  this model. They live in other files. The effects of the PI controller
  and of `PFC_MeasureCurrentOffset` on the aggregate are inputs of each cycle
  (`External`). The effect of `PFC_MeasureCurrentInit` (pfc.c:148), which
  resets the offset calibration, is dropped: OFFSET_MEAS reads the
  calibration's ready flag and offset only from `External`, so nothing in
  the model depends on that reset. `PiOutputsOk` assumes only that the PI
  output respects its [0, INT16_MAX] clamp.
- The `pfc.h` constants are the fields of `Config`, with the assumptions of
  `ValidConfig`. Their build-time values are not fixed, and neither are the
  two compile-time options (`ENABLE_PFC_CURRENT_OFFSET_CORRECTION`,
  `PFC_POWER_CONTROL`).
- The `DEBUG_BOOST` build, which forces a fixed duty in the interrupt, is not
  modelled.
- The widths of the aggregate's fields are assumptions about `pfc.h`: the
  fault mask is 16 bits wide (`Mask`), the readings, references and
  estimator outputs are `int16_t` (`Int16`) and the duty is `uint16_t`
  (`Uint16`).
- The running sums of the estimators and the PI integrators are unbounded
  integers. The model assumes that their C types, declared in `pfc.h`, are
  wide enough not to wrap; `pfc.h` is not part of this model.
- A `__builtin_divsd` quotient outside int16 is a divide overflow on the
  target, whose result is not modelled: `TruncDiv` is exact and the
  `(int16_t)` cast (`Wrap16`) then narrows it. For the average this never
  happens (`AverageFits`); for the mean-square it can (`RmsOutputCanWrap`),
  and `RmsOutputInRange` says when it cannot. `ValidConfig` keeps every
  window length below 0x8000 so that the signed 16-bit divisor is the
  positive length the model divides by.
- The hardware saturation of `__builtin_divf` for an out-of-range quotient is
  not modelled. `DivF` narrows instead. `DivFExact` shows that no narrowing
  happens in the documented range.
- The aggregate `PFC_T` is held by the class `Pfc` as one record field,
  `data`. The methods update it field by field in place. The estimator
  records inside it are values, and the pointer aliasing of `pCurrent` and
  `pVoltage` into the aggregate is not modelled separately.
  `Estimators.Averager` and `Estimators.RmsEstimator` model `PFC_Average`
  and `PFC_SquaredRMSCalculate` as the C code writes them, on a record
  updated through its pointer, and are proved to perform `AverageStep` and
  `RmsStep`. Inside the aggregate the records are fields of the one value
  `data`, so `Pfc.Estimate` applies those same step functions to them
  rather than holding separate objects.
- The local `pfcState` of `PFC_StateMachine` is the return value of
  `Pfc.CtrlRunPhase` and `Pfc.FaultPhase`, which is stored into `state` at
  the end of the cycle, as the C code does.
- `State.Other` stands for a `state` value outside the five phase constants.
  The dispatch's `default` leaves the aggregate unchanged.
- PfcSpec.CurrentRefGenerate, PfcSpec.CurrentControlLoop, PfcSpec.FaultCheck
  and PfcSpec.RunControl: their own ensures state only the frame (settings
  and phase). What they compute is stated by `CurrentRefGenerateEffect`,
  `CurrentLoopBounds`, `FaultCheckFromClear`, `TripMaskCodes` and
  `RunControlCycle`.

Behaviours worth knowing, where the code does something other than its
comments and names suggest; the model follows the code:

- OFFSET_MEAS seeds the voltage reference from the DC-bus average but gates
  its exit on the AC average's ready flag (`vacAVG.status`, pfc.c:158), not
  on the DC average's; the DC average's ready flag is never tested.
- A current sample of exactly 0 is not clamped; only negative samples become
  1.
- The duty can be 0 in CTRL_RUN, through the standby override, besides the
  [PFC_MIN_DUTY, PFC_MAX_DUTY] range.
- The mean-square window sums `sampleLimit + 1` terms and divides by
  `sampleLimit` (`RmsWindow`). With a short window the quotient can overflow
  int16 (`RmsOutputCanWrap`).
- `PFC_ResetParams` does not clear the AC-average ready flag.
- Nothing clears the output over-voltage code once it is set
  (`OverVoltageLatches`).
- The fault check adds codes with `+=` rather than OR-ing them. From
  power-on this is harmless, because the check only runs with an empty mask
  (`ReachableStates`). On a mask that already holds a code it carries
  (`RepeatedTripCarries`).
- On the CTRL_RUN cycle that detects a fault, the duty and the enabled
  outputs of the previous cycle are left as they are, so they stand for one
  more PWM period before FAULT zeroes them (`CtrlRunCycle`).
- The anti-windup of the current loop fires only when the raw duty count is
  strictly above `PFC_MAX_DUTY`, not when it reaches it (`CurrentLoopBounds`).
- The soft start can overshoot the setpoint by up to RAMP_COUNT - 1 when the
  last ramp step crosses it; the next step pulls the reference back to the
  setpoint (`SoftStartOvershoot`).
- At a zero crossing of the input (`rectifiedVac == 0`) the ideal-duty divide
  is `__builtin_divf(vdc, vdc)`, whose quotient 1 is outside the Q15 range;
  the model's value there, -0x8000, is its own narrowing, not the target's
  (`ZeroCrossingRatio`; `BoostDutyRatio` is exact only for a rectified input
  in (0, vdc]).
- When the ideal duty ratio is not positive, the sample correction scales the
  sample by Q15(0.9999) rather than passing it through unchanged; a sample of
  10000 becomes 9998 (`CorrectionNearOne`).
- Nothing in pfc.c sets `sampleCorrectionEnable` to 1 (pfc.c:320 sets it to
  0), so the sample correction is never used by this file alone.
